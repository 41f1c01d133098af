/**
 * The review queue in memory and the review items in the store.  In undisturbed runs without
 * questions every task has as many queued items as unresolved stored ones, restarts included; and a
 * stored item, once resolved, stays resolved.
 */
module Agreement {
  import opened Options
  import opened Columns
  import opened Kanban
  import opened ReviewQueues
  import opened Reviews
  import opened Protocol
  import opened Atomic
  import Sorting = StableSorting

  // ── Counting on both sides ────────────────────────────────────────────────

  function QueuedFor(q: Queue, taskId: Id): nat {
    if q == [] then 0
    else QueuedFor(q[..|q| - 1], taskId) + (if q[|q| - 1].taskId == taskId then 1 else 0)
  }

  ghost function OpenFor(reviews: map<Id, PersistedItem>, taskId: Id): set<Id> {
    set p | p in reviews && Candidate(reviews, taskId, p)
  }

  lemma {:induction false} QueuedConcat(a: Queue, b: Queue, taskId: Id)
    ensures QueuedFor(a + b, taskId) == QueuedFor(a, taskId) + QueuedFor(b, taskId)
  {
    if b == [] {
      assert a + b == a;
    } else {
      QueuedConcat(a, b[..|b| - 1], taskId);
      assert (a + b)[..|a + b| - 1] == a + b[..|b| - 1];
    }
  }

  lemma QueuedAfterEnqueue(q: Queue, item: ReviewItem, taskId: Id)
    ensures QueuedFor(Enqueue(q, item), taskId) == QueuedFor(q, taskId) + (if item.taskId == taskId then 1 else 0)
  {
    var k := Sorting.Position(ByKey(), q, item);
    assert q == q[..k] + q[k..];
    QueuedSplit(q[..k], item, q[k..], taskId);
  }

  /** Taking by task takes one item of that task if there is one, and none of any other task. */
  lemma QueuedAfterTake(q: Queue, id: Id, taskId: Id)
    ensures QueuedFor(DequeueByTask(q, id).0, taskId)
      == QueuedFor(q, taskId) - (if taskId == id && QueuedFor(q, id) > 0 then 1 else 0)
  {
    var k := FirstForTask(q, id);
    if k < |q| {
      assert q == q[..k] + [q[k]] + q[k + 1..];
      QueuedSplit(q[..k], q[k], q[k + 1..], taskId);
      QueuedSplit(q[..k], q[k], q[k + 1..], id);
    } else {
      NoneQueued(q, id);
    }
  }

  lemma QueuedSplit(a: Queue, x: ReviewItem, b: Queue, taskId: Id)
    ensures QueuedFor(a + [x] + b, taskId) == QueuedFor(a + b, taskId) + (if x.taskId == taskId then 1 else 0)
  {
    QueuedConcat(a + [x], b, taskId);
    QueuedConcat(a, [x], taskId);
    QueuedConcat(a, b, taskId);
    assert [x][..0] == [];
  }

  lemma {:induction false} NoneQueued(q: Queue, id: Id)
    requires forall i :: 0 <= i < |q| ==> q[i].taskId != id
    ensures QueuedFor(q, id) == 0
  {
    if q != [] { NoneQueued(q[..|q| - 1], id); }
  }

  // ── The invariant ─────────────────────────────────────────────────────────

  /** Items are stored under their own ids, which are used up. */
  ghost predicate ItemsFiled(s: State) {
    forall p :: p in s.reviews ==> s.reviews[p].id == p && p in s.used
  }

  ghost predicate Agree(q: Queue, reviews: map<Id, PersistedItem>) {
    forall taskId :: QueuedFor(q, taskId) == |OpenFor(reviews, taskId)|
  }

  /** An agent on its way to filing a question. */
  predicate Asks(p: Phase) {
    p.Asking? || p.Asked? || p.Flagging? || p.FilingItem?
  }

  ghost predicate Quiet(s: State) {
    && s.loop.Listening?
    && (forall r :: !Asks(AgentIn(s.agents, r).phase))
    && (forall i :: 0 <= i < |s.events| ==> !s.events[i].AgentBlocked?)
  }

  ghost predicate Agreed(s: State) {
    ItemsFiled(s) && Agree(s.queue, s.reviews) && Quiet(s)
  }

  /** Calls and event handlings run undisturbed; no agent, tool or merge raises a question and none is answered. */
  ghost function Questionless(): (State, Action) -> bool {
    (s: State, a: Action) =>
      match a
      case AgentStep(r, x) => !AgentChange(s, r, x).1.Asking?
      case LoopStep(_) => false
      case Begin(_, _, _) => false
      case Continue(_, _) => false
      case Whole(op, _) => !op.OpAsk? && !op.OpAnswer?
      case WholeEvent(x) => !x.conflict
      case _ => true
  }

  // ── What the writes do to the open items ──────────────────────────────────

  lemma OpenAfterNew(s: State, p: PersistedItem, taskId: Id)
    requires ItemsFiled(s) && p.id !in s.used && IsUnresolved(p)
    ensures |OpenFor(s.reviews[p.id := p], taskId)|
      == |OpenFor(s.reviews, taskId)| + (if p.taskId == taskId then 1 else 0)
  {
    var before, after := OpenFor(s.reviews, taskId), OpenFor(s.reviews[p.id := p], taskId);
    assert p.id !in before;
    if p.taskId == taskId { assert after == before + {p.id}; } else { assert after == before; }
  }

  lemma OpenAfterDecision(reviews: map<Id, PersistedItem>, p: Id, a: ReviewAction, taskId: Id)
    requires p in reviews && IsUnresolved(reviews[p]) && !a.Comment?
    ensures |OpenFor(reviews[p := Append(reviews[p], a)], taskId)|
      == |OpenFor(reviews, taskId)| - (if reviews[p].taskId == taskId then 1 else 0)
  {
    ActionsResolve(reviews[p], a);
    var before, after := OpenFor(reviews, taskId), OpenFor(reviews[p := Append(reviews[p], a)], taskId);
    assert p !in after;
    if reviews[p].taskId == taskId { assert before == after + {p}; } else { assert before == after; }
  }

  lemma OpenAfterComment(reviews: map<Id, PersistedItem>, p: Id, a: ReviewAction, taskId: Id)
    requires p in reviews && a.Comment?
    ensures OpenFor(reviews[p := Append(reviews[p], a)], taskId) == OpenFor(reviews, taskId)
  {
    ActionsResolve(reviews[p], a);
  }

  // ── Sections ──────────────────────────────────────────────────────────────

  lemma AgentFilesNothing(s: State, r: Role, x: Input)
    requires !Asks(AgentOf(s, r).phase) && !AgentChange(s, r, x).1.Asking?
    ensures var (ch, next) := AgentChange(s, r, x);
      && ch.review.None? && ch.queue.KeepQueue? && ch.newId.None? && !Asks(next)
      && (ch.event.Some? ==> !ch.event.value.AgentBlocked?)
  {
    hide NextUnblocked;
  }

  lemma AgentAgreed(s: State, r: Role, x: Input)
    requires Agreed(s) && !AgentChange(s, r, x).1.Asking?
    ensures Agreed(AgentSection(s, r, x))
  {
    hide AgentChange, Agree, WriteBoard, WriteStore;
    AgentFilesNothing(s, r, x);
    var s' := AgentSection(s, r, x);
    NoSignal(s, r, x);
    assert AgentIn(s'.agents, r).phase == AgentChange(s, r, x).1;
    assert forall q :: q != r ==> AgentIn(s'.agents, q) == AgentIn(s.agents, q);
  }

  lemma NoSignal(s: State, r: Role, x: Input)
    ensures AgentChange(s, r, x).0.signal == None
  {
    hide NextUnblocked;
  }

  /** A task entering a buffer adds one item on each side. */
  lemma EntryAgreed(s: State, id: Id, to: Column, x: Input)
    requires Agreed(s) && x.newId !in s.used
    ensures Agreed(AfterEntry(s, id, to, x))
  {
    hide Enqueue;
    var s' := AfterEntry(s, id, to, x);
    forall taskId ensures QueuedFor(s'.queue, taskId) == |OpenFor(s'.reviews, taskId)| {
      OpenAfterNew(s, s'.reviews[x.newId], taskId);
      QueuedAfterEnqueue(s.queue, ReviewItem(x.queueId, id, s'.reviews[x.newId].kind, s'.reviews[x.newId].description, x.now), taskId);
    }
  }

  lemma SignalKeepsQuiet(s: State, s': State)
    requires Agreed(s) && s'.queue == s.queue && s'.reviews == s.reviews && s.used <= s'.used
    requires s'.loop == s.loop && (forall i :: 0 <= i < |s'.events| ==> !s'.events[i].AgentBlocked?)
    requires forall r :: AgentIn(s'.agents, r).phase == AgentIn(s.agents, r).phase
    ensures Agreed(s')
  {
    hide Agree;
  }

  lemma EventAgreed(s: State, x: Input)
    requires Agreed(s) && !x.conflict
    ensures Agreed(HandleEvent(s, x))
  {
    hide Agreed, HandleEvent, AfterStageChange;
    EventIsAtomic(s, x);
    if s.loop.Listening? && s.events != [] && x.newId !in s.used {
      var s1 := s.(events := s.events[1..]);
      FewerEvents(s, s1);
      if s.events[0].StageChanged? {
        ArrivalAgreed(s1, s.events[0].id, s.events[0].from, s.events[0].to, x);
      } else {
        PlainEventAgreed(s, x);
      }
    }
  }

  lemma FewerEvents(s: State, s': State)
    requires Agreed(s) && s' == s.(events := s'.events) && exists n :: 0 <= n <= |s.events| && s'.events == s.events[n..]
    ensures Agreed(s')
  {
    hide Agree;
  }

  lemma PlainEventAgreed(s: State, x: Input)
    requires Agreed(s) && s.events != [] && !s.events[0].StageChanged? && Agreed(s.(events := s.events[1..]))
    ensures Agreed(AtomicEvent(s, x))
  {
    hide Agree, AfterStageChange;
    SignalKeepsQuiet(s, s.(events := s.events[1..], agents := WriteSignal(s.agents, Some(Prioritizer))));
  }

  lemma ArrivalAgreed(s: State, id: Id, from: Column, to: Column, x: Input)
    requires Agreed(s) && !x.conflict && x.newId !in s.used
    ensures Agreed(AfterStageChange(s, id, from, to, x))
  {
    hide Agreed, AfterEntry, WriteSignal;
    var s1 := AfterRelease(s, from);
    ReleaseAgreed(s, from);
    if RoleOf(to).Some? { WakeAgreed(s1, RoleOf(to)); }
    else if IsBuffer(to) { EntryAgreed(s1, id, to, x); }
  }

  lemma ReleaseAgreed(s: State, from: Column)
    requires Agreed(s)
    ensures Agreed(AfterRelease(s, from)) && AfterRelease(s, from).used == s.used
  {
    SignalKeepsQuiet(s, AfterRelease(s, from));
  }

  lemma WakeAgreed(s: State, r: Option<Role>)
    requires Agreed(s)
    ensures Agreed(s.(agents := WriteSignal(s.agents, r)))
  {
    SignalKeepsQuiet(s, s.(agents := WriteSignal(s.agents, r)));
  }

  // ── Calls ─────────────────────────────────────────────────────────────────

  lemma DecisionCounts(s: State, id: Id, d: Decision, x: Input, taskId: Id)
    requires ItemsFiled(s) && Agree(s.queue, s.reviews)
    ensures var s' := AfterDecision(s, id, d, x); QueuedFor(s'.queue, taskId) == |OpenFor(s'.reviews, taskId)|
  {
    hide DecideOn, DequeueByTask, IsUnresolved;
    if DecideOn(s.board, id, d, x.now).1 {
      QueuedAfterTake(s.queue, id, taskId);
      assert QueuedFor(s.queue, id) == |OpenFor(s.reviews, id)|;
      var p := FindUnresolved(s.reviews, id, x.pick);
      if p.Some? {
        assert p.value.id in OpenFor(s.reviews, id);
        OpenAfterDecision(s.reviews, p.value.id, ActionOf(d, x.now), taskId);
      } else {
        assert OpenFor(s.reviews, id) == {};
      }
    }
  }

  lemma DecisionAgreed(s: State, id: Id, d: Decision, x: Input)
    requires Agreed(s)
    ensures Agreed(AfterDecision(s, id, d, x))
  {
    hide DecideOn, DequeueByTask;
    DecisionKeepsQuiet(s, id, d, x);
    forall taskId
      ensures QueuedFor(AfterDecision(s, id, d, x).queue, taskId) == |OpenFor(AfterDecision(s, id, d, x).reviews, taskId)|
    {
      DecisionCounts(s, id, d, x, taskId);
    }
  }

  lemma DecisionKeepsQuiet(s: State, id: Id, d: Decision, x: Input)
    requires Agreed(s)
    ensures ItemsFiled(AfterDecision(s, id, d, x)) && Quiet(AfterDecision(s, id, d, x))
  {
    hide ItemsFiled, Quiet, AfterDecision, Agree;
    DecisionStaysQuiet(s, id, d, x);
    DecisionStaysFiled(s, id, d, x);
  }

  lemma DecisionStaysQuiet(s: State, id: Id, d: Decision, x: Input)
    requires Quiet(s)
    ensures Quiet(AfterDecision(s, id, d, x))
  {
    hide DecideOn, DequeueByTask, FindUnresolved, IsUnresolved, WriteStore, WriteReviews;
    var s' := AfterDecision(s, id, d, x);
    assert forall r :: AgentIn(s'.agents, r).phase == AgentIn(s.agents, r).phase;
  }

  lemma DecisionStaysFiled(s: State, id: Id, d: Decision, x: Input)
    requires ItemsFiled(s)
    ensures ItemsFiled(AfterDecision(s, id, d, x))
  {
    hide DecideOn, DequeueByTask, IsUnresolved, WriteStore, WriteSignal;
  }

  lemma DecisionOpAgreed(s: State, op: Op, x: Input)
    requires Agreed(s) && (op.OpApprove? || op.OpReject? || op.OpRejectTo?)
    ensures Agreed(Atomically(s, op, x))
  {
    hide AfterDecision, Agreed, BufferOf;
    if BufferOf(s.board, op.id).Some? {
      var c := BufferOf(s.board, op.id).value;
      BufferIsBuffer(s.board, op.id);
      if op.OpApprove? { DecisionAgreed(s, op.id, Approved(Next(c).value), x); }
      else if op.OpReject? { DecisionAgreed(s, op.id, Rejected(Prev(c).value, op.feedback), x); }
      else { DecisionAgreed(s, op.id, Rejected(op.target, op.feedback), x); }
    }
  }

  lemma DiscussAgreed(s: State, op: Op, x: Input)
    requires Agreed(s) && op.OpDiscuss?
    ensures Agreed(Atomically(s, op, x))
  {
    hide Agreed, IsUnresolved;
    var p := FindUnresolved(s.reviews, op.taskId, x.pick);
    if p.Some? {
      FoundIsFiled(s, op.taskId, x.pick);
      CommentsAgree(s, p.value.id, Comment(x.now, true, op.content), Comment(x.now, false, x.text));
    }
  }

  lemma FoundIsFiled(s: State, taskId: Id, pick: Id)
    requires Agreed(s)
    ensures var p := FindUnresolved(s.reviews, taskId, pick);
      p.Some? ==> p.value.id in s.reviews && s.reviews[p.value.id] == p.value && IsUnresolved(p.value)
                  && p.value.taskId == taskId
  {
  }

  lemma CommentsAgree(s: State, p: Id, a: ReviewAction, b: ReviewAction)
    requires Agreed(s) && p in s.reviews && a.Comment? && b.Comment?
    ensures Agreed(s.(reviews := WriteReviews(s.reviews, Some(Append(Append(s.reviews[p], a), b)))))
  {
    var once := s.reviews[p := Append(s.reviews[p], a)];
    var twice := once[p := Append(once[p], b)];
    assert twice == WriteReviews(s.reviews, Some(Append(Append(s.reviews[p], a), b)));
    forall taskId ensures QueuedFor(s.queue, taskId) == |OpenFor(twice, taskId)| {
      OpenAfterComment(s.reviews, p, a, taskId);
      OpenAfterComment(once, p, b, taskId);
    }
  }

  lemma EditAgreed(s: State, op: Op, x: Input)
    requires Agreed(s) && (op.OpPrioritize? || op.OpPark? || op.OpUpdate?)
    ensures Agreed(Atomically(s, op, x))
  {
    hide Agree, SetPriority, Amend;
    var s' := Atomically(s, op, x);
    assert s' == s.(store := s'.store, board := s'.board);
    SignalKeepsQuiet(s, s');
  }

  lemma BlockAgreed(s: State, id: Id, blockedBy: seq<Id>, from: Column)
    requires Agreed(s)
    ensures Agreed(AfterBlock(s, id, blockedBy, from))
  {
    hide Agree, ItemsFiled, Quiet, AfterBlock;
    BlockStaysQuiet(s, id, blockedBy, from);
    BlockKeepsItems(s, id, blockedBy, from);
    StillAgreed(s, AfterBlock(s, id, blockedBy, from));
  }

  lemma StillAgreed(s: State, s': State)
    requires Agreed(s) && s'.reviews == s.reviews && s'.queue == s.queue && s'.used == s.used && Quiet(s')
    ensures Agreed(s')
  {
    hide Agree, Quiet;
  }

  lemma BlockKeepsItems(s: State, id: Id, blockedBy: seq<Id>, from: Column)
    ensures var s' := AfterBlock(s, id, blockedBy, from);
      && s'.reviews == s.reviews && s'.queue == s.queue && s'.used == s.used && s'.loop == s.loop
      && (s'.agents == s.agents || s'.agents == WriteSignal(s.agents, Some(Prioritizer)))
      && (s'.events == s.events || s'.events == s.events + [StageChanged(id, from, Prioritized)])
  {
    hide BlockOn, WriteStore, WriteSignal;
  }

  lemma BlockStaysQuiet(s: State, id: Id, blockedBy: seq<Id>, from: Column)
    requires Quiet(s)
    ensures Quiet(AfterBlock(s, id, blockedBy, from))
  {
    hide AfterBlock;
    BlockKeepsItems(s, id, blockedBy, from);
    var s' := AfterBlock(s, id, blockedBy, from);
    forall r ensures AgentIn(s'.agents, r).phase == AgentIn(s.agents, r).phase {}
  }

  lemma CreateAgreed(s: State, op: Op, x: Input)
    requires Agreed(s) && op.OpCreate?
    ensures Agreed(Atomically(s, op, x))
  {
    hide Agree, Atomically;
    CreateKeepsItems(s, op, x);
    SignalKeepsQuiet(s, Atomically(s, op, x));
  }

  lemma CreateKeepsItems(s: State, op: Op, x: Input)
    requires op.OpCreate?
    ensures var s' := Atomically(s, op, x);
      && s'.reviews == s.reviews && s'.queue == s.queue && s.used <= s'.used && s'.loop == s.loop && s'.agents == s.agents
      && (s'.events == s.events || s'.events == s.events + [TaskCreated(x.newId)])
  {
    hide AddTask;
  }

  lemma OtherOpAgreed(s: State, op: Op, x: Input)
    requires Agreed(s) && (op.OpBlock? || op.OpCreate? || op.OpPrioritize? || op.OpPark? || op.OpUpdate?)
    ensures Agreed(Atomically(s, op, x))
  {
    if op.OpBlock? {
      hide Agreed, AfterBlock, FindColumn;
      var from := FindColumn(s.board, op.id);
      if from.Some? { BlockAgreed(s, op.id, op.blockedBy, from.value); }
    } else {
      hide Agreed, Atomically;
      if op.OpCreate? { CreateAgreed(s, op, x); } else { EditAgreed(s, op, x); }
    }
  }

  lemma CallAgreed(s: State, op: Op, x: Input)
    requires Agreed(s) && !op.OpAsk? && !op.OpAnswer?
    ensures Agreed(RunCall(s, op, x))
  {
    hide Agreed, Atomically, RunCall;
    WholeIsAtomic(s, op, x);
    if op.OpApprove? || op.OpReject? || op.OpRejectTo? { DecisionOpAgreed(s, op, x); }
    else if op.OpDiscuss? { DiscussAgreed(s, op, x); }
    else { OtherOpAgreed(s, op, x); }
  }

  // ── Restart ───────────────────────────────────────────────────────────────

  lemma {:induction false} RebuildCounts(items: seq<ReviewItem>, taskId: Id)
    ensures QueuedFor(Rebuild(items), taskId) == QueuedFor(items, taskId)
  {
    if items != [] {
      RebuildCounts(items[..|items| - 1], taskId);
      QueuedAfterEnqueue(Rebuild(items[..|items| - 1]), items[|items| - 1], taskId);
    }
  }

  ghost function OfTask(m: map<Id, PersistedItem>, order: seq<Id>, taskId: Id): set<Id> {
    set id | id in order && id in m && m[id].taskId == taskId
  }

  lemma {:induction false} ItemsCount(m: map<Id, PersistedItem>, order: seq<Id>, taskId: Id)
    requires forall id :: id in order ==> id in m
    requires forall i, j :: 0 <= i < j < |order| ==> order[i] != order[j]
    ensures QueuedFor(QueueItems(m, order), taskId) == |OfTask(m, order, taskId)|
  {
    if order != [] {
      ItemsCount(m, order[..|order| - 1], taskId);
      OfTaskNext(m, order, taskId);
    }
  }

  lemma OfTaskNext(m: map<Id, PersistedItem>, order: seq<Id>, taskId: Id)
    requires order != [] && forall id :: id in order ==> id in m
    requires forall i, j :: 0 <= i < j < |order| ==> order[i] != order[j]
    ensures var init, last := order[..|order| - 1], order[|order| - 1];
      |OfTask(m, order, taskId)| == |OfTask(m, init, taskId)| + (if m[last].taskId == taskId then 1 else 0)
  {
    var init, last := order[..|order| - 1], order[|order| - 1];
    assert order == init + [last] && last !in init;
    assert OfTask(m, order, taskId) == OfTask(m, init, taskId) + (if m[last].taskId == taskId then {last} else {});
  }

  lemma BootAgreed(s: State, order: seq<Id>, reviewOrder: seq<Id>, limits: map<Column, Priority>)
    requires ItemsFiled(s) && CanBoot(s, order, reviewOrder)
    ensures Agreed(Boot(s, order, reviewOrder, limits))
  {
    hide FromTasks, Rebuild, QueueItems, Lookup;
    var s' := Boot(s, order, reviewOrder, limits);
    forall taskId ensures QueuedFor(s'.queue, taskId) == |OpenFor(s'.reviews, taskId)| {
      RebuildCounts(QueueItems(s.reviews, reviewOrder), taskId);
      ItemsCount(s.reviews, reviewOrder, taskId);
      assert OfTask(s.reviews, reviewOrder, taskId) == OpenFor(s.reviews, taskId);
    }
  }

  lemma StepAgreed(s: State, a: Action)
    requires Agreed(s) && Questionless()(s, a)
    ensures Agreed(Apply(s, a))
  {
    hide Agreed, AgentSection, AgentChange, RunCall, HandleEvent, Boot, CanBoot;
    match a {
      case AgentStep(r, x) => AgentAgreed(s, r, x);
      case Whole(op, x) => CallAgreed(s, op, x);
      case WholeEvent(x) => EventAgreed(s, x);
      case Lag(n) => if n <= |s.events| { FewerEvents(s, s.(events := s.events[n..])); }
      case SetLimits(limits) => LimitsAgreed(s, limits);
      case Restart(order, reviewOrder, limits) =>
        if CanBoot(s, order, reviewOrder) {
          AgreedIsFiled(s);
          BootAgreed(s, order, reviewOrder, limits);
        }
      case LoopStep(_) =>
      case Begin(_, _, _) =>
      case Continue(_, _) =>
    }
  }

  lemma AgreedIsFiled(s: State)
    requires Agreed(s)
    ensures ItemsFiled(s)
  {
  }

  lemma LimitsAgreed(s: State, limits: map<Column, Priority>)
    requires Agreed(s)
    ensures Agreed(s.(limits := limits))
  {
    hide Agree;
  }

  /** In every such run, restarts included, each task has as many queued items as unresolved stored ones. */
  lemma {:induction false} QueueAgreesWithStore(states: seq<State>, run: seq<Action>, k: nat, taskId: Id)
    requires Trace(states, run, Questionless()) && Agreed(states[0]) && k < |states|
    ensures Agreed(states[k])
    ensures QueuedFor(states[k].queue, taskId) == |OpenFor(states[k].reviews, taskId)|
  {
    hide Trace, Apply, ItemsFiled, Quiet, Questionless, OpenFor, QueuedFor;
    if k > 0 {
      QueueAgreesWithStore(states, run, k - 1, taskId);
      LastStep(states, run, Questionless(), k);
      StepAgreed(states[k - 1], run[k - 1]);
    }
  }

  // ── Resolved items stay resolved ──────────────────────────────────────────

  /** No two calls overlap; questions, answers and single loop sections are allowed. */
  ghost function NoOverlap(): (State, Action) -> bool {
    (s: State, a: Action) => !a.Begin? && !a.Continue?
  }

  /** Stored items stay and only gain actions. */
  ghost predicate OnlyGain(s: State, s': State) {
    && ItemsFiled(s')
    && forall p :: p in s.reviews ==> p in s'.reviews && s.reviews[p].actions <= s'.reviews[p].actions
  }

  /** The item written is a stored one with more actions, or one under a new id. */
  ghost predicate Gains(s: State, p: PersistedItem) {
    if p.id in s.reviews then s.reviews[p.id].actions <= p.actions else p.id !in s.used
  }

  lemma WriteGains(s: State, s': State, p: PersistedItem)
    requires ItemsFiled(s) && Gains(s, p) && s'.reviews == s.reviews[p.id := p] && s.used <= s'.used && p.id in s'.used
    ensures OnlyGain(s, s')
  {
  }

  lemma SameItems(s: State, s': State)
    requires ItemsFiled(s) && s'.reviews == s.reviews && s.used <= s'.used
    ensures OnlyGain(s, s')
  {
  }

  lemma GainChain(s0: State, s1: State, s2: State)
    requires OnlyGain(s0, s1) && OnlyGain(s1, s2)
    ensures OnlyGain(s0, s2)
  {
    forall p | p in s0.reviews ensures p in s2.reviews && s0.reviews[p].actions <= s2.reviews[p].actions {
      assert s0.reviews[p].actions <= s1.reviews[p].actions <= s2.reviews[p].actions;
    }
  }

  /** Agents and the event loop write review items only under new ids. */
  lemma SectionsFileNew(s: State, r: Role, x: Input)
    ensures var ch := AgentChange(s, r, x).0;
      if ch.review.Some? then ch.newId == Some(ch.review.value.id) && ch.review.value.id !in s.used else ch.newId.None?
    ensures var ch := LoopChange(s, x).0;
      if ch.review.Some? then ch.newId == Some(ch.review.value.id) && ch.review.value.id !in s.used else ch.newId.None?
  {
    hide NextUnblocked;
  }

  lemma PerformGains(s: State, ch: Change, s': State)
    requires ItemsFiled(s) && s'.reviews == Perform(s, ch).reviews && s'.used == Perform(s, ch).used
    requires if ch.review.Some? then ch.newId == Some(ch.review.value.id) && ch.review.value.id !in s.used
             else ch.newId.None?
    ensures OnlyGain(s, s')
  {
    hide WriteBoard, WriteStore, WriteQueue;
    if ch.review.Some? { WriteGains(s, s', ch.review.value); }
  }

  lemma AgentGains(s: State, r: Role, x: Input)
    requires ItemsFiled(s)
    ensures OnlyGain(s, AgentSection(s, r, x))
  {
    hide AgentChange, Perform, ItemsFiled;
    SectionsFileNew(s, r, x);
    PerformGains(s, AgentChange(s, r, x).0, AgentSection(s, r, x));
  }

  lemma LoopGains(s: State, x: Input)
    requires ItemsFiled(s)
    ensures OnlyGain(s, LoopSection(s, x))
  {
    hide LoopChange, Perform, ItemsFiled;
    SectionsFileNew(s, Coder, x);
    PerformGains(s, LoopChange(s, x).0, LoopSection(s, x));
  }

  lemma {:induction false} EventGains(s: State, x: Input, fuel: nat)
    requires ItemsFiled(s)
    ensures OnlyGain(s, FinishEvent(s, x, fuel))
    decreases fuel
  {
    hide LoopSection;
    LoopGains(s, x);
    var s1 := LoopSection(s, x);
    if !s1.loop.Listening? && fuel > 0 {
      EventGains(s1, x, fuel - 1);
      GainChain(s, s1, FinishEvent(s1, x, fuel - 1));
    }
  }

  lemma FoundGains(s: State, taskId: Id, pick: Id, actions: seq<ReviewAction>)
    requires ItemsFiled(s)
    ensures var p := FindUnresolved(s.reviews, taskId, pick);
      p.Some? ==> Gains(s, p.value.(actions := p.value.actions + actions)) && p.value.id in s.used
  {
    hide IsUnresolved;
  }

  lemma DecisionGains(s: State, id: Id, d: Decision, x: Input)
    requires ItemsFiled(s)
    ensures OnlyGain(s, AfterDecision(s, id, d, x))
  {
    hide DecideOn, DequeueByTask, FindUnresolved, Gains, ItemsFiled, WriteStore, WriteSignal;
    var s' := AfterDecision(s, id, d, x);
    FoundGains(s, id, x.pick, [ActionOf(d, x.now)]);
    if s'.reviews == s.reviews { SameItems(s, s'); }
    else { WriteGains(s, s', Append(FindUnresolved(s.reviews, id, x.pick).value, ActionOf(d, x.now))); }
  }

  lemma AnswerGains(s: State, item: ReviewItem, answer: string, now: int)
    requires ItemsFiled(s)
    ensures OnlyGain(s, AfterAnswer(s, item, answer, now))
  {
    var s' := AfterAnswer(s, item, answer, now);
    if item.id in s.reviews { WriteGains(s, s', Append(s.reviews[item.id], Answer(now, answer))); }
  }

  lemma ReviewOpGains(s: State, op: Op, x: Input)
    requires ItemsFiled(s) && (op.OpAnswer? || op.OpAsk? || op.OpDiscuss?)
    ensures OnlyGain(s, Atomically(s, op, x))
  {
    hide Enqueue, Dequeue, FindUnresolved, AfterAnswer, ItemsFiled;
    var s' := Atomically(s, op, x);
    if s'.reviews == s.reviews && s.used <= s'.used { SameItems(s, s'); }
    else if op.OpAnswer? {
      var (q, taken) := Dequeue(s.queue, op.itemId);
      AnswerOpGains(s, q, taken.value, op.answer, x.now);
    } else if op.OpAsk? {
      NewItemGains(s, PersistedItem(x.newId, op.taskId, AgentQuestion(op.question), op.question, x.now, []), s');
    } else {
      var p := FindUnresolved(s.reviews, op.taskId, x.pick).value;
      var a, b := Comment(x.now, true, op.content), Comment(x.now, false, x.text);
      FoundGains(s, op.taskId, x.pick, [a, b]);
      assert Append(Append(p, a), b) == p.(actions := p.actions + [a, b]);
      WriteGains(s, s', p.(actions := p.actions + [a, b]));
    }
  }

  lemma NewItemGains(s: State, p: PersistedItem, s': State)
    requires ItemsFiled(s) && p.id !in s.used && s'.reviews == s.reviews[p.id := p] && s'.used == s.used + {p.id}
    ensures OnlyGain(s, s')
  {
    WriteGains(s, s', p);
  }

  lemma AnswerOpGains(s: State, q: Queue, item: ReviewItem, answer: string, now: int)
    requires ItemsFiled(s)
    ensures OnlyGain(s, AfterAnswer(s.(queue := q), item, answer, now))
  {
    hide AfterAnswer;
    AnswerGains(s.(queue := q), item, answer, now);
  }

  lemma DecisionOpGains(s: State, op: Op, x: Input)
    requires ItemsFiled(s) && (op.OpApprove? || op.OpReject? || op.OpRejectTo?)
    ensures OnlyGain(s, Atomically(s, op, x))
  {
    hide ItemsFiled, AfterDecision, OnlyGain, BufferOf;
    SameItems(s, s);
    BufferIsBuffer(s.board, op.id);
    var c := BufferOf(s.board, op.id);
    if c.Some? {
      DecisionGains(s, op.id, if op.OpApprove? then Approved(Next(c.value).value)
                              else if op.OpReject? then Rejected(Prev(c.value).value, op.feedback)
                              else Rejected(op.target, op.feedback), x);
    }
  }

  lemma BlockGains(s: State, id: Id, blockedBy: seq<Id>, from: Column)
    requires ItemsFiled(s)
    ensures OnlyGain(s, AfterBlock(s, id, blockedBy, from))
  {
    SameItems(s, AfterBlock(s, id, blockedBy, from));
  }

  lemma OtherOpGains(s: State, op: Op, x: Input)
    requires ItemsFiled(s) && (op.OpBlock? || op.OpCreate? || op.OpPrioritize? || op.OpPark? || op.OpUpdate?)
    ensures OnlyGain(s, Atomically(s, op, x))
  {
    hide ItemsFiled, OnlyGain, AfterBlock, AddTask, SetPriority, FindColumn, Amend, WriteBoard, NewTask;
    if op.OpBlock? {
      SameItems(s, s);
      var from := FindColumn(s.board, op.id);
      if from.Some? { BlockGains(s, op.id, op.blockedBy, from.value); }
    } else {
      SameItems(s, Atomically(s, op, x));
    }
  }

  lemma CallGains(s: State, op: Op, x: Input)
    requires ItemsFiled(s)
    ensures OnlyGain(s, RunCall(s, op, x))
  {
    hide RunCall, ItemsFiled, OnlyGain, Atomically;
    WholeIsAtomic(s, op, x);
    if op.OpAnswer? || op.OpAsk? || op.OpDiscuss? { ReviewOpGains(s, op, x); }
    else if op.OpApprove? || op.OpReject? || op.OpRejectTo? { DecisionOpGains(s, op, x); }
    else { OtherOpGains(s, op, x); }
  }

  lemma StepGains(s: State, a: Action)
    requires ItemsFiled(s) && NoOverlap()(s, a)
    ensures OnlyGain(s, Apply(s, a))
  {
    hide AgentSection, LoopSection, RunCall, FinishEvent, OnlyGain, ItemsFiled, CanBoot, FromTasks, Rebuild;
    if a.AgentStep? { AgentGains(s, a.role, a.input); }
    else if a.LoopStep? { LoopGains(s, a.input); }
    else if a.Whole? { CallGains(s, a.op, a.input); }
    else if a.WholeEvent? {
      SameItems(s, s);
      EventGains(s, a.input, EVENT_SECTIONS);
    } else { SameItems(s, Apply(s, a)); }
  }

  /** Along a run without overlapping calls every stored item stays and only gains actions. */
  lemma {:induction false} ItemsOnlyGain(states: seq<State>, run: seq<Action>, k: nat)
    requires Trace(states, run, NoOverlap()) && ItemsFiled(states[0]) && k < |states|
    ensures OnlyGain(states[0], states[k]) && ItemsFiled(states[k])
  {
    hide Trace, Apply, ItemsFiled, NoOverlap, OnlyGain;
    if k == 0 {
      SameItems(states[0], states[0]);
      GainKeepsFiled(states[0], states[0]);
    } else {
      ItemsOnlyGain(states, run, k - 1);
      LastStep(states, run, NoOverlap(), k);
      StepGains(states[k - 1], run[k - 1]);
      GainChain(states[0], states[k - 1], states[k]);
      GainKeepsFiled(states[0], states[k]);
    }
  }

  lemma GainKeepsFiled(s: State, s': State)
    requires OnlyGain(s, s')
    ensures ItemsFiled(s')
  {
  }

  /** So a resolved item stays resolved, also across restarts. */
  lemma ResolvedStaysResolved(states: seq<State>, run: seq<Action>, k: nat, p: Id)
    requires Trace(states, run, NoOverlap()) && ItemsFiled(states[0]) && k < |states|
    requires p in states[0].reviews && !IsUnresolved(states[0].reviews[p])
    ensures p in states[k].reviews && !IsUnresolved(states[k].reviews[p])
  {
    hide Trace;
    ItemsOnlyGain(states, run, k);
    var before, after := states[0].reviews[p].actions, states[k].reviews[p].actions;
    var i :| 0 <= i < |before| && !before[i].Comment?;
    assert after[i] == before[i];
  }
}
