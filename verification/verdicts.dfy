/**
 * What decisions leave on the stored review items.  An approval adds exactly an approval to exactly one
 * unresolved item of its task and a rejection a rejection with its feedback; and whatever the interleaving,
 * an item holds a verdict only if that verdict was recorded in the history of its task.
 */
module Verdicts {
  import opened Options
  import opened Columns
  import opened Kanban
  import opened ReviewQueues
  import opened Reviews
  import opened Protocol
  import opened Atomic
  import opened Effects
  import opened Listings
  import opened Steps
  import opened Gates

  // ── One decision ──────────────────────────────────────────────────────────

  /** If the task has an unresolved item, one of them has gained exactly this action; else nothing has changed. */
  ghost predicate Resolves(before: map<Id, PersistedItem>, after: map<Id, PersistedItem>, taskId: Id, a: ReviewAction) {
    if exists p :: Candidate(before, taskId, p)
    then exists p :: Candidate(before, taskId, p) && after == before[p := before[p].(actions := before[p].actions + [a])]
    else after == before
  }

  ghost predicate OwnIds(reviews: map<Id, PersistedItem>) {
    forall p :: p in reviews ==> reviews[p].id == p
  }

  /** The action a decision stores, on a task that is listed and has a record. */
  lemma DecisionResolvesOne(s: State, id: Id, d: Decision, x: Input)
    requires OwnIds(s.reviews) && DecideOn(s.board, id, d, x.now).1
    ensures d.Approved? ==> Resolves(s.reviews, AfterDecision(s, id, d, x).reviews, id, Approve(x.now))
    ensures d.Rejected? ==> Resolves(s.reviews, AfterDecision(s, id, d, x).reviews, id, Reject(x.now, d.feedback))
  {
    hide DecideOn, IsUnresolved, WriteStore, WriteSignal, DequeueByTask;
    var p := FindUnresolved(s.reviews, id, x.pick);
    if p.Some? {
      assert Candidate(s.reviews, id, p.value.id);
    }
  }

  /** A decision that does not go through leaves the items alone. */
  lemma NothingResolved(s: State, id: Id, d: Decision, x: Input)
    requires !DecideOn(s.board, id, d, x.now).1
    ensures AfterDecision(s, id, d, x).reviews == s.reviews
  {
    hide DecideOn;
  }

  /** An approval of a task in a buffer adds exactly an approval to one of its unresolved items. */
  lemma ApprovalIsStored(s: State, id: Id, x: Input)
    requires OwnIds(s.reviews)
    ensures var after := RunCall(s, OpApprove(id), x).reviews;
      if BufferOf(s.board, id).Some? && id in s.board.tasks then Resolves(s.reviews, after, id, Approve(x.now))
      else after == s.reviews
  {
    hide RunCall, FindColumn, Resolves, OwnIds, DecideOn, AfterDecision;
    WholeIsAtomic(s, OpApprove(id), x);
    if BufferOf(s.board, id).Some? {
      BufferIsBuffer(s.board, id);
      var d := Approved(Next(BufferOf(s.board, id).value).value);
      DecidesListed(s.board, id, d, x.now);
      if id in s.board.tasks { DecisionResolvesOne(s, id, d, x); } else { NothingResolved(s, id, d, x); }
    }
  }

  /** A rejection, to the column before or to any work column, adds exactly a rejection with its feedback. */
  lemma RejectionIsStored(s: State, op: Op, x: Input)
    requires OwnIds(s.reviews) && (op.OpReject? || op.OpRejectTo?)
    ensures var after := RunCall(s, op, x).reviews;
      if BufferOf(s.board, op.id).Some? && op.id in s.board.tasks && (op.OpRejectTo? ==> RoleOf(op.target).Some?)
      then Resolves(s.reviews, after, op.id, Reject(x.now, op.feedback))
      else after == s.reviews
  {
    hide RunCall, FindColumn, Resolves, OwnIds, DecideOn, AfterDecision, RoleOf;
    WholeIsAtomic(s, op, x);
    if BufferOf(s.board, op.id).Some? && (op.OpRejectTo? ==> RoleOf(op.target).Some?) {
      BufferIsBuffer(s.board, op.id);
      var d := Rejected(if op.OpReject? then Prev(BufferOf(s.board, op.id).value).value else op.target, op.feedback);
      DecidesListed(s.board, op.id, d, x.now);
      if op.id in s.board.tasks { DecisionResolvesOne(s, op.id, d, x); } else { NothingResolved(s, op.id, d, x); }
    }
  }

  /** A decision goes through exactly for a listed task with a record. */
  lemma DecidesListed(b: Board, id: Id, d: Decision, now: int)
    ensures DecideOn(b, id, d, now).1 <==> FindColumn(b, id).Some? && id in b.tasks
  {
    hide Advance, Rework, FindColumn, Relisted;
    if d.Approved? { AdvanceLists(b, id, d.target); } else { ReworkLists(b, id, d.target); }
  }

  // ── Verdicts and what they stand for ──────────────────────────────────────

  predicate IsVerdict(a: ReviewAction) {
    a.Approve? || a.Reject?
  }

  /** The history holds an approval, or a rejection with the feedback, whichever the action is. */
  ghost predicate Bears(h: seq<HistoryEntry>, a: ReviewAction) {
    exists e :: e in h && (if a.Approve? then e.Approval? else a.Reject? && e.Rejection? && e.feedback == a.feedback)
  }

  ghost predicate Attests(s: State, id: Id, a: ReviewAction) {
    id in s.board.tasks && Bears(s.board.tasks[id].history, a)
  }

  type Witness = (Id, ReviewAction) -> bool

  /** Every verdict on the item is attested for its task. */
  ghost predicate ItemSound(p: PersistedItem, seen: Witness) {
    forall a :: a in p.actions && IsVerdict(a) ==> seen(p.taskId, a)
  }

  ghost predicate DecisionSound(id: Id, d: Decision, seen: Witness) {
    forall stamp :: seen(id, if d.Approved? then Approve(stamp) else Reject(stamp, d.feedback))
  }

  /** What a half-done call is about to write is sound. */
  ghost predicate CallSound(call: Call, seen: Witness) {
    match call
    case SavingDecision(id, d) => DecisionSound(id, d, seen)
    case Resolving(id, d) => DecisionSound(id, d, seen)
    case Recording(id, d, p) => DecisionSound(id, d, seen) && p.taskId == id && ItemSound(p, seen)
    case RecordingAnswer(_, _, p) => ItemSound(p, seen)
    case Discussing(p) => ItemSound(p, seen)
    case _ => true
  }

  ghost predicate ItemsSound(reviews: map<Id, PersistedItem>, seen: Witness) {
    forall p :: p in reviews ==> ItemSound(reviews[p], seen)
  }

  ghost predicate CallsSound(calls: map<nat, Call>, seen: Witness) {
    forall pid :: pid in calls ==> CallSound(calls[pid], seen)
  }

  /** Records are filed under their own ids, on the board and in the store. */
  ghost predicate BothKeyed(s: State) {
    Keyed(s.board.tasks) && Keyed(s.store)
  }

  ghost predicate Sound(s: State, seen: Witness) {
    BothKeyed(s) && ItemsSound(s.reviews, seen) && CallsSound(s.calls, seen)
  }

  /** The witness knows everything the board shows. */
  ghost predicate Sees(s: State, seen: Witness) {
    forall id, a :: IsVerdict(a) && Attests(s, id, a) ==> seen(id, a)
  }

  // ── Sections ──────────────────────────────────────────────────────────────

  lemma PerformKeyed(s: State, ch: Change)
    requires BothKeyed(s)
    ensures BothKeyed(Perform(s, ch))
  {
    hide WriteBoard, WriteReviews, WriteQueue, WriteWaiting, WriteSignal, HistoryAfter, StageAfter;
    WriteRecords(s.board, ch.board);
  }

  lemma PerformSound(s: State, ch: Change, seen: Witness)
    requires ItemsSound(s.reviews, seen) && (ch.review.Some? ==> ItemSound(ch.review.value, seen))
    ensures ItemsSound(Perform(s, ch).reviews, seen)
  {
    hide WriteBoard, WriteStore, WriteQueue, WriteWaiting, WriteSignal, ItemSound;
  }

  /** Agents and the event loop file items without actions. */
  lemma FilesNoAction(s: State, r: Role, x: Input)
    ensures var ch := AgentChange(s, r, x).0; ch.review.Some? ==> ch.review.value.actions == []
    ensures var ch := LoopChange(s, x).0; ch.review.Some? ==> ch.review.value.actions == []
  {
    hide NextUnblocked, Advance, Count;
  }

  lemma AgentSound(s: State, r: Role, x: Input, seen: Witness)
    requires Sound(s, seen)
    ensures Sound(AgentSection(s, r, x), seen)
  {
    hide AgentChange, Perform, ItemsSound, CallsSound, Keyed;
    FilesNoAction(s, r, x);
    PerformKeyed(s, AgentChange(s, r, x).0);
    PerformSound(s, AgentChange(s, r, x).0, seen);
    PerformKeepsCalls(s, AgentChange(s, r, x).0);
  }

  lemma LoopSound(s: State, x: Input, seen: Witness)
    requires Sound(s, seen)
    ensures Sound(LoopSection(s, x), seen)
  {
    hide LoopChange, Perform, ItemsSound, CallsSound, Keyed;
    FilesNoAction(s, Coder, x);
    PerformKeyed(s, LoopChange(s, x).0);
    PerformSound(s, LoopChange(s, x).0, seen);
    PerformKeepsCalls(s, LoopChange(s, x).0);
  }

  lemma {:induction false} EventSound(s: State, x: Input, seen: Witness, fuel: nat)
    requires Sound(s, seen)
    ensures Sound(FinishEvent(s, x, fuel), seen)
    decreases fuel
  {
    hide LoopSection, Sound;
    LoopSound(s, x, seen);
    if !LoopSection(s, x).loop.Listening? && fuel > 0 { EventSound(LoopSection(s, x), x, seen, fuel - 1); }
  }

  /** The first section of a call files at most an item without actions, and takes at most a copy of a stored one. */
  lemma BeginChangeSound(s: State, op: Op, x: Input, seen: Witness)
    requires ItemsSound(s.reviews, seen)
    ensures var (ch, next) := BeginChange(s, op, x);
      (ch.review.Some? ==> ch.review.value.actions == []) && (next.Some? ==> CallSound(next.value, seen))
  {
    hide FindColumn, BufferOf, BlockOn, IsUnresolved, Dequeue, ItemSound;
    if op.OpDiscuss? {
      var p := FindUnresolved(s.reviews, op.taskId, x.pick);
      if p.Some? {
        CommentedSound(p.value, Comment(x.now, true, op.content), seen);
        CommentedSound(Append(p.value, Comment(x.now, true, op.content)), Comment(x.now, false, x.text), seen);
      }
    }
  }

  lemma CommentedSound(p: PersistedItem, a: ReviewAction, seen: Witness)
    requires ItemSound(p, seen) && (IsVerdict(a) ==> seen(p.taskId, a))
    ensures ItemSound(Append(p, a), seen)
  {
  }

  lemma BeginSound(s: State, op: Op, x: Input, seen: Witness)
    requires Sound(s, seen)
    ensures var (s1, next) := BeginSection(s, op, x);
      Sound(s1, seen) && s1.calls == s.calls && (next.Some? ==> CallSound(next.value, seen))
  {
    hide BeginChange, Perform, ItemsSound, CallsSound, Keyed;
    BeginChangeSound(s, op, x, seen);
    PerformKeyed(s, BeginChange(s, op, x).0);
    PerformSound(s, BeginChange(s, op, x).0, seen);
    PerformKeepsCalls(s, BeginChange(s, op, x).0);
  }

  /** The only reviews a call writes after its first section. */
  lemma LaterReview(s: State, call: Call, x: Input, seen: Witness)
    requires CallSound(call, seen)
    ensures var ch := ContinueChange(s, call, x).0; ch.review.Some? ==> ItemSound(ch.review.value, seen)
  {
    hide ContinueChange, ItemSound, DecisionSound;
    WritesItsCopy(s, call, x);
    if call.Recording? { DecidedSound(call.stored, call.id, call.decision, x.now, seen); }
    else if call.RecordingAnswer? { CommentedSound(call.stored, Answer(x.now, call.answer), seen); }
  }

  lemma DecidedSound(p: PersistedItem, id: Id, d: Decision, now: int, seen: Witness)
    requires DecisionSound(id, d, seen) && p.taskId == id && ItemSound(p, seen)
    ensures ItemSound(Append(p, ActionOf(d, now)), seen)
  {
    CommentedSound(p, ActionOf(d, now), seen);
  }

  lemma WritesItsCopy(s: State, call: Call, x: Input)
    ensures ContinueChange(s, call, x).0.review ==
      if call.Recording? then Some(Append(call.stored, ActionOf(call.decision, x.now)))
      else if call.RecordingAnswer? then Some(Append(call.stored, Answer(x.now, call.answer)))
      else if call.Discussing? then Some(call.stored) else None
  {
    hide FindColumn, BufferOf, DecideOn, FindUnresolved, Append, ActionOf;
  }

  /** The call a section goes on with holds what it held, a copy of a stored item, or a decision just made. */
  lemma LaterCall(s: State, call: Call, x: Input, seen: Witness)
    requires CallSound(call, seen) && ItemsSound(s.reviews, seen)
    requires call.Deciding? && DecideOn(s.board, call.id, call.decision, x.now).1 ==> DecisionSound(call.id, call.decision, seen)
    ensures var next := ContinueChange(s, call, x).1; next.Some? ==> CallSound(next.value, seen)
  {
    hide FindColumn, BufferOf, DecideOn, IsUnresolved, ItemSound, DecisionSound;
  }

  /** A decision that goes through shows in the history of its task. */
  lemma DecisionShows(b: Board, id: Id, d: Decision, now: int, stamp: int)
    requires Keyed(b.tasks) && DecideOn(b, id, d, now).1
    ensures var b' := DecideOn(b, id, d, now).0;
      id in b'.tasks && Bears(b'.tasks[id].history, if d.Approved? then Approve(stamp) else Reject(stamp, d.feedback))
  {
    hide DecideOn;
    DecidesListed(b, id, d, now);
    WriteRecords(b, Decide(id, d, now));
    var h := DecideOn(b, id, d, now).0.tasks[id].history;
    assert h == b.tasks[id].history + [EntryOf(d, now)];
    assert EntryOf(d, now) in h;
  }

  lemma DecisionSeen(b: Board, s': State, id: Id, d: Decision, now: int, seen: Witness)
    requires Keyed(b.tasks) && DecideOn(b, id, d, now).1 && s'.board == DecideOn(b, id, d, now).0 && Sees(s', seen)
    ensures DecisionSound(id, d, seen)
  {
    hide DecideOn, Bears;
    forall stamp ensures seen(id, if d.Approved? then Approve(stamp) else Reject(stamp, d.feedback)) {
      DecisionShows(b, id, d, now, stamp);
    }
  }

  lemma ContinueSound(s: State, call: Call, x: Input, seen: Witness)
    requires Sound(s, seen) && CallSound(call, seen)
    requires call.Deciding? && DecideOn(s.board, call.id, call.decision, x.now).1 ==> DecisionSound(call.id, call.decision, seen)
    ensures var (s1, next) := ContinueSection(s, call, x);
      Sound(s1, seen) && s1.calls == s.calls && (next.Some? ==> CallSound(next.value, seen))
  {
    hide ContinueChange, Perform, ItemsSound, CallsSound, Keyed, CallSound, DecideOn, Deliver, DecisionSound;
    LaterReview(s, call, x, seen);
    LaterCall(s, call, x, seen);
    PerformKeyed(s, ContinueChange(s, call, x).0);
    PerformSound(s, ContinueChange(s, call, x).0, seen);
    PerformKeepsCalls(s, ContinueChange(s, call, x).0);
  }

  lemma {:induction false} FinishSound(s: State, call: Call, x: Input, seen: Witness, fuel: nat)
    requires Sound(s, seen) && CallSound(call, seen)
    requires (call.Targeted? ==> fuel >= 8) && (call.Deciding? ==> fuel >= 7)
    requires call.Targeted? || call.Deciding? ==> Sees(Finish(s, call, x, fuel), seen)
    ensures Sound(Finish(s, call, x, fuel), seen)
    decreases fuel
  {
    hide ContinueSection, Sound, CallSound, Sees, DecisionSound, DecideOn;
    if call.Deciding? && DecideOn(s.board, call.id, call.decision, x.now).1 { DecidingSeen(s, call, x, seen, fuel); }
    ContinueSound(s, call, x, seen);
    var (s1, next) := ContinueSection(s, call, x);
    if next.Some? && fuel > 0 {
      NeverDecidesAgain(s, call, x);
      FinishSound(s1, next.value, x, seen, fuel - 1);
    }
  }

  /** What a decision has written to the board stays to the end of its call. */
  lemma DecidingSeen(s: State, call: Call, x: Input, seen: Witness, fuel: nat)
    requires Sound(s, seen) && call.Deciding? && fuel >= 7 && DecideOn(s.board, call.id, call.decision, x.now).1
    requires Sees(Finish(s, call, x, fuel), seen)
    ensures DecisionSound(call.id, call.decision, seen)
  {
    hide Finish, DecideOn, Sees, AfterDecision, DecisionSound;
    DecisionIsAtomic(s, call.id, call.decision, x, fuel);
    DecidedBoard(s, call.id, call.decision, x);
    DecisionSeen(s.board, Finish(s, call, x, fuel), call.id, call.decision, x.now, seen);
  }

  /** Only the section before a decision goes on to one. */
  lemma NeverDecidesAgain(s: State, call: Call, x: Input)
    ensures var next := ContinueSection(s, call, x).1;
      next.Some? ==> !next.value.Targeted? && (next.value.Deciding? ==> call.Targeted?)
  {
    hide FindColumn, BufferOf, DecideOn, FindUnresolved, Perform, Deliver;
  }

  lemma WholeSound(s: State, op: Op, x: Input, seen: Witness)
    requires Sound(s, seen) && Sees(RunCall(s, op, x), seen)
    ensures Sound(RunCall(s, op, x), seen)
  {
    hide BeginSection, Finish, Sound, Sees, CallSound;
    BeginSound(s, op, x, seen);
    var (s1, next) := BeginSection(s, op, x);
    if next.Some? { FinishSound(s1, next.value, x, seen, CALL_SECTIONS); }
  }

  // ── Steps and runs ────────────────────────────────────────────────────────

  lemma TrackSound(s: State, pid: nat, next: Option<Call>, seen: Witness)
    requires Sound(s, seen) && (next.Some? ==> CallSound(next.value, seen))
    ensures Sound(Track(s, pid, next), seen)
  {
    hide Keyed, ItemsSound, CallSound;
  }

  lemma CallStepSound(s: State, a: Action, seen: Witness)
    requires Sound(s, seen) && Sees(Apply(s, a), seen) && (a.Begin? || a.Continue?)
    ensures Sound(Apply(s, a), seen)
  {
    hide BeginSection, ContinueSection, BothKeyed, ItemsSound, CallSound, Sees, DecideOn, DecisionSound;
    if a.Begin? && a.pid !in s.calls {
      BeginSound(s, a.op, a.input, seen);
      TrackSound(BeginSection(s, a.op, a.input).0, a.pid, BeginSection(s, a.op, a.input).1, seen);
    } else if a.Continue? && a.pid in s.calls {
      var call := s.calls[a.pid];
      if call.Deciding? && DecideOn(s.board, call.id, call.decision, a.input.now).1 {
        KeyedBoard(s, seen);
        DecidingBoard(s, call, a.input);
        DecisionSeen(s.board, Apply(s, a), call.id, call.decision, a.input.now, seen);
      }
      ContinueSound(s, call, a.input, seen);
      TrackSound(ContinueSection(s, call, a.input).0, a.pid, ContinueSection(s, call, a.input).1, seen);
    }
  }

  lemma KeyedBoard(s: State, seen: Witness)
    requires Sound(s, seen)
    ensures Keyed(s.board.tasks)
  {
  }

  lemma DecidingBoard(s: State, call: Call, x: Input)
    requires call.Deciding?
    ensures ContinueSection(s, call, x).0.board == DecideOn(s.board, call.id, call.decision, x.now).0
  {
    hide DecideOn, Perform, Deliver;
    BoardSection(s, Decide(call.id, call.decision, x.now));
  }

  lemma BootSound(s: State, a: Action, seen: Witness)
    requires Sound(s, seen) && a.Restart?
    ensures Sound(Apply(s, a), seen)
  {
    hide CanBoot, FromTasks, Rebuild, ItemSound, CallSound;
    if CanBoot(s, a.order, a.reviewOrder) { BootBoard(s, a.order, a.reviewOrder, a.limits); }
  }

  lemma PlainSound(s: State, a: Action, seen: Witness)
    requires Sound(s, seen) && (a.SetLimits? || a.Lag?)
    ensures Sound(Apply(s, a), seen)
  {
    hide AgentSection, LoopSection, BeginSection, ContinueSection, RunCall, HandleEvent, CanBoot, Boot;
    hide Keyed, ItemsSound, CallsSound;
  }

  lemma StepSound(s: State, a: Action, seen: Witness)
    requires Sound(s, seen) && Sees(Apply(s, a), seen)
    ensures Sound(Apply(s, a), seen)
  {
    hide Sound, Sees, AgentSection, LoopSection, RunCall, FinishEvent, CanBoot, Boot;
    if a.AgentStep? { AgentSound(s, a.role, a.input, seen); }
    else if a.LoopStep? { LoopSound(s, a.input, seen); }
    else if a.WholeEvent? { EventSound(s, a.input, seen, EVENT_SECTIONS); }
    else if a.Whole? { WholeSound(s, a.op, a.input, seen); }
    else if a.Restart? { BootSound(s, a, seen); }
    else if a.SetLimits? || a.Lag? { PlainSound(s, a, seen); }
    else { CallStepSound(s, a, seen); }
  }

  /** At some point up to state `k` the board recorded the verdict in the history of the task. */
  ghost predicate Recorded(states: seq<State>, k: nat, id: Id, a: ReviewAction) {
    exists m {:trigger states[m]} :: 0 <= m <= k < |states| && Attests(states[m], id, a)
  }

  ghost function SeenUpTo(states: seq<State>, k: nat): Witness {
    (id: Id, a: ReviewAction) => Recorded(states, k, id, a)
  }

  lemma SeesLast(states: seq<State>, k: nat)
    requires k < |states|
    ensures Sees(states[k], SeenUpTo(states, k))
  {
    hide Attests;
  }

  lemma RecordedLater(states: seq<State>, k: nat, id: Id, a: ReviewAction)
    requires 0 < k < |states| && Recorded(states, k - 1, id, a)
    ensures Recorded(states, k, id, a)
  {
    hide Attests;
  }

  lemma SoundLater(s: State, seen: Witness, seen': Witness)
    requires Sound(s, seen) && forall id, a :: seen(id, a) ==> seen'(id, a)
    ensures Sound(s, seen')
  {
    hide BothKeyed;
    forall pid | pid in s.calls ensures CallSound(s.calls[pid], seen') {
      assert CallSound(s.calls[pid], seen);
    }
    forall p | p in s.reviews ensures ItemSound(s.reviews[p], seen') {
      assert ItemSound(s.reviews[p], seen);
    }
  }

  lemma {:induction false} RunSound(states: seq<State>, run: seq<Action>, k: nat)
    requires Trace(states, run, Anything()) && Sound(states[0], SeenUpTo(states, 0)) && k < |states|
    ensures Sound(states[k], SeenUpTo(states, k))
  {
    hide Trace, Apply, Sound, Sees, Recorded, Anything;
    if k > 0 {
      RunSound(states, run, k - 1);
      LastStep(states, run, Anything(), k);
      forall id, a | SeenUpTo(states, k - 1)(id, a) ensures SeenUpTo(states, k)(id, a) { RecordedLater(states, k, id, a); }
      SoundLater(states[k - 1], SeenUpTo(states, k - 1), SeenUpTo(states, k));
      SeesLast(states, k);
      StepSound(states[k - 1], run[k - 1], SeenUpTo(states, k));
    }
  }

  /** Before anything has been decided nothing needs to be attested. */
  lemma UndecidedIsSound(s: State, seen: Witness)
    requires BothKeyed(s) && s.calls == map[]
    requires forall p, a :: p in s.reviews && a in s.reviews[p].actions ==> !IsVerdict(a)
    ensures Sound(s, seen)
  {
  }

  /**
   * No verdict comes from nowhere.  From any state without pending calls and stored verdicts, in every
   * interleaving, edits and restarts included, a stored item holds an approval only if at that point or
   * before the history of its task held one, and a rejection only if it held a rejection with that feedback.
   */
  lemma VerdictsAreRecorded(states: seq<State>, run: seq<Action>, k: nat, p: Id, a: ReviewAction)
    requires Trace(states, run, Anything()) && k < |states|
    requires BothKeyed(states[0]) && states[0].calls == map[]
    requires forall q, b :: q in states[0].reviews && b in states[0].reviews[q].actions ==> !IsVerdict(b)
    requires p in states[k].reviews && a in states[k].reviews[p].actions
    ensures a.Approve? ==> exists m, e ::
      0 <= m <= k && states[k].reviews[p].taskId in states[m].board.tasks
      && e in states[m].board.tasks[states[k].reviews[p].taskId].history && e.Approval?
    ensures a.Reject? ==> exists m, e ::
      0 <= m <= k && states[k].reviews[p].taskId in states[m].board.tasks
      && e in states[m].board.tasks[states[k].reviews[p].taskId].history && e.Rejection? && e.feedback == a.feedback
  {
    hide Trace, BothKeyed;
    UndecidedIsSound(states[0], SeenUpTo(states, 0));
    RunSound(states, run, k);
    if IsVerdict(a) {
      SoundItem(states[k], SeenUpTo(states, k), p, a);
      assert Recorded(states, k, states[k].reviews[p].taskId, a);
    }
  }

  lemma SoundItem(s: State, seen: Witness, p: Id, a: ReviewAction)
    requires Sound(s, seen) && p in s.reviews && a in s.reviews[p].actions && IsVerdict(a)
    ensures seen(s.reviews[p].taskId, a)
  {
    assert ItemSound(s.reviews[p], seen);
  }
}
