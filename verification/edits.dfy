/**
 * What an edit of a task takes back.  An edit writes the record it read when it began, so it loses
 * from the board exactly the decisions recorded on the task since then, in every interleaving.
 */
module Edits {
  import opened Options
  import opened Columns
  import opened Kanban
  import opened ReviewQueues
  import opened Reviews
  import opened Protocol
  import opened Atomic
  import opened Listings
  import opened Resolution
  import opened Steps

  // ── What happens to one task's history ────────────────────────────────────

  /** The step records a decision on the task. */
  ghost predicate Records(s: State, a: Action, id: Id) {
    var w := StepWrite(s, a);
    w.Decide? && w.id == id && WriteBoard(s.board, w).1
  }

  /** The step puts a whole record on the board under the task's id. */
  ghost predicate Overwrites(s: State, a: Action, id: Id) {
    var w := StepWrite(s, a);
    (w.Replace? || w.Insert?) && w.task.id == id
  }

  /** Any interleaving in which nothing overwrites the task. */
  ghost function NotOverwritten(id: Id): (State, Action) -> bool {
    (s: State, a: Action) => !a.Restart? && !Overwrites(s, a, id)
  }

  /** The task is on a board whose records are under their own ids. */
  ghost predicate OnBoard(s: State, id: Id) {
    Keyed(s.board.tasks) && id in s.board.tasks
  }

  /** One step: the history grows by an entry exactly when the step records a decision on the task. */
  lemma StepHistory(s: State, a: Action, id: Id)
    requires OnBoard(s, id) && !a.Restart? && !Overwrites(s, a, id)
    ensures OnBoard(Apply(s, a), id)
    ensures var h, h' := s.board.tasks[id].history, Apply(s, a).board.tasks[id].history;
      if Records(s, a, id) then h < h' else h' == h
  {
    hide Apply, WriteBoard, StepWrite, FindColumn;
    StepWritesBoard(s, a);
    WriteRecords(s.board, StepWrite(s, a));
  }

  lemma NotOverwrittenMeans(s: State, a: Action, id: Id)
    requires NotOverwritten(id)(s, a)
    ensures !a.Restart? && !Overwrites(s, a, id)
  {
  }

  ghost predicate NothingRecorded(states: seq<State>, run: seq<Action>, k: nat, id: Id) {
    k <= |run| && |states| == |run| + 1 && forall i {:trigger run[i]} :: 0 <= i < k ==> !Records(states[i], run[i], id)
  }

  /** Over a run: the history has grown exactly when a decision on the task was recorded. */
  lemma {:induction false} RunHistory(states: seq<State>, run: seq<Action>, k: nat, id: Id)
    requires Trace(states, run, NotOverwritten(id)) && OnBoard(states[0], id) && k < |states|
    ensures OnBoard(states[k], id)
    ensures var h, h' := states[0].board.tasks[id].history, states[k].board.tasks[id].history;
      if NothingRecorded(states, run, k, id) then h' == h else h < h'
  {
    hide Apply, Records, Overwrites, NotOverwritten;
    if k > 0 {
      RunHistory(states, run, k - 1, id);
      LastStep(states, run, NotOverwritten(id), k);
      NotOverwrittenMeans(states[k - 1], run[k - 1], id);
      StepHistory(states[k - 1], run[k - 1], id);
      assert NothingRecorded(states, run, k, id) <==>
        NothingRecorded(states, run, k - 1, id) && !Records(states[k - 1], run[k - 1], id);
    }
  }

  // ── The edit ──────────────────────────────────────────────────────────────

  /** The call is the edit, before or after it has written the store. */
  predicate EditPending(s: State, pid: nat, t: Task) {
    pid in s.calls && (s.calls[pid] == StoringEdit(t) || s.calls[pid] == SettingEdit(t))
  }

  /** Until it lands, the edit stays pending with the record it read. */
  lemma EditStaysPending(s: State, a: Action, pid: nat, t: Task)
    requires EditPending(s, pid, t) && !a.Restart? && !Overwrites(s, a, t.id)
    ensures EditPending(Apply(s, a), pid, t)
  {
    if a.Continue? && a.pid == pid { OwnContinue(s, a, pid, t); }
    else {
      hide Apply, StepWrite;
      PendingStays(s, a, pid);
    }
  }

  lemma OwnContinue(s: State, a: Action, pid: nat, t: Task)
    requires EditPending(s, pid, t) && a.Continue? && a.pid == pid && !Overwrites(s, a, t.id)
    ensures EditPending(Apply(s, a), pid, t)
  {
    hide WriteBoard, WriteStore, WriteReviews, WriteQueue, WriteWaiting, WriteSignal, Deliver;
  }

  lemma {:induction false} EditRun(states: seq<State>, run: seq<Action>, k: nat, pid: nat, t: Task)
    requires Trace(states, run, NotOverwritten(t.id)) && EditPending(states[0], pid, t) && k < |states|
    ensures EditPending(states[k], pid, t)
  {
    hide Trace, Apply, NotOverwritten, Overwrites, EditPending;
    if k > 0 {
      EditRun(states, run, k - 1, pid, t);
      LastStep(states, run, NotOverwritten(t.id), k);
      NotOverwrittenMeans(states[k - 1], run[k - 1], t.id);
      EditStaysPending(states[k - 1], run[k - 1], pid, t);
    }
  }

  /**
   * The last section of an edit keeps what the board has recorded on the task exactly when that is a
   * prefix of the history of the record it writes.
   */
  lemma EditLandsIff(s: State, pid: nat, t: Task, y: Input)
    requires OnBoard(s, t.id) && pid in s.calls && s.calls[pid] == SettingEdit(t)
    ensures var s' := Apply(s, Continue(pid, y));
      && OnBoard(s', t.id) && s'.board.tasks[t.id] == t
      && (s.board.tasks[t.id].history <= s'.board.tasks[t.id].history <==> s.board.tasks[t.id].history <= t.history)
  {
    hide WriteStore, WriteReviews, WriteQueue, WriteWaiting, WriteSignal, Deliver;
  }

  lemma EditReads(s: State, pid: nat, id: Id, title: string, x: Input)
    requires pid !in s.calls && id in s.store
    ensures var s' := Apply(s, Begin(pid, OpUpdate(id, title), x));
      EditPending(s', pid, s.store[id].(title := title)) && s'.board == s.board
  {
    hide WriteStore, WriteReviews, WriteQueue, WriteWaiting, WriteSignal;
  }

  /**
   * An edit that began when store and board had the same history of the task, and lands later in any
   * interleaving in which nothing else overwrites the task, sets the history back to what it was; it
   * loses something exactly when a decision on the task was recorded in between.
   */
  lemma EditLosesDecisionIff(s: State, pid: nat, id: Id, title: string, x: Input, y: Input,
                             states: seq<State>, run: seq<Action>, k: nat)
    requires OnBoard(s, id) && pid !in s.calls && id in s.store
    requires s.store[id].id == id && s.store[id].history == s.board.tasks[id].history
    requires states != [] && states[0] == Apply(s, Begin(pid, OpUpdate(id, title), x))
    requires Trace(states, run, NotOverwritten(id)) && k < |states|
    requires pid in states[k].calls && states[k].calls[pid].SettingEdit?
    ensures OnBoard(states[k], id) && OnBoard(Apply(states[k], Continue(pid, y)), id)
    ensures var shown, landed := states[k].board.tasks[id], Apply(states[k], Continue(pid, y)).board.tasks[id];
      && landed.history == s.board.tasks[id].history
      && (shown.history <= landed.history <==> NothingRecorded(states, run, k, id))
  {
    hide Trace, Apply, NotOverwritten, NothingRecorded, Records, Overwrites;
    var t := s.store[id].(title := title);
    EditReads(s, pid, id, title, x);
    EditRun(states, run, k, pid, t);
    RunHistory(states, run, k, id);
    EditLandsIff(states[k], pid, t, y);
  }
}
