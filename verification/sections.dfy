/**
 * Undisturbed calls are runs of the interleaved machine: a `Whole` step ends where beginning the call
 * and continuing it section by section, with nothing in between, ends.
 */
module Sections {
  import opened Options
  import opened Columns
  import opened Kanban
  import opened ReviewQueues
  import opened Reviews
  import opened Protocol

  /** How many sections a call has left. */
  function SectionsLeft(call: Call): nat {
    match call
    case Targeted(_, _, _) => 8
    case Deciding(_, _) => 7
    case SavingDecision(_, _) => 6
    case Resolving(_, _) => 5
    case Recording(_, _, _) => 4
    case Dequeuing(_, _) => 3
    case Announcing(_, _) => 2
    case SignallingTarget(_) => 1
    case SavingBlock(_, _) => 3
    case AnnouncingBlock(_, _) => 2
    case SignallingBlock => 1
    case Adding(_) => 2
    case AnnouncingTask(_) => 1
    case StoringPriority(_, _) => 2
    case SettingPriority(_, _) => 1
    case StoringNote(_, _) => 2
    case SettingNote(_, _) => 1
    case StoringEdit(_) => 2
    case SettingEdit(_) => 1
    case Answering(_, _) => 5
    case RecordingAnswer(_, _, _) => 4
    case Locating(_, _) => 3
    case Unblocking(_, _) => 2
    case Notifying(_) => 1
    case FilingQuestion(_) => 1
    case Discussing(_) => 1
  }

  lemma SectionsRunOut(s: State, call: Call, x: Input)
    ensures var next := ContinueChange(s, call, x).1; next.Some? ==> SectionsLeft(next.value) < SectionsLeft(call)
  {
    hide FindColumn, DecideOn, BufferOf, FindUnresolved, Append;
  }

  lemma FirstSection(s: State, op: Op, x: Input)
    ensures var next := BeginChange(s, op, x).1; next.Some? ==> SectionsLeft(next.value) < CALL_SECTIONS
  {
    hide FindColumn, BlockOn, BufferOf, Dequeue;
  }

  /** The rest of a call, one section per action. */
  function Continues(pid: nat, x: Input, n: nat): seq<Action> {
    if n == 0 then [] else [Continue(pid, x)] + Continues(pid, x, n - 1)
  }

  lemma ExecNothing(s: State)
    ensures Exec(s, []) == s
  {
  }

  /** One more action of a run. */
  lemma ExecOne(s: State, run: seq<Action>, a: Action)
    ensures Exec(s, run + [a]) == Apply(Exec(s, run), a)
  {
    hide Apply;
    assert (run + [a])[..|run|] == run;
  }

  lemma {:induction false} ExecConcat(s: State, a: seq<Action>, b: seq<Action>)
    ensures Exec(s, a + b) == Exec(Exec(s, a), b)
  {
    hide Exec, Apply;
    if b == [] {
      assert a + b == a;
      ExecNothing(Exec(s, a));
    } else {
      var init, last := b[..|b| - 1], b[|b| - 1];
      assert b == init + [last] && a + b == (a + init) + [last];
      ExecConcat(s, a, init);
      ExecOne(s, a + init, last);
      ExecOne(Exec(s, a), init, last);
    }
  }

  lemma ExecFirst(s: State, a: Action, rest: seq<Action>)
    ensures Exec(s, [a] + rest) == Exec(Apply(s, a), rest)
  {
    hide Apply;
    ExecConcat(s, [a], rest);
    assert [a][..0] == [] && Exec(s, []) == s;
  }

  lemma ExecTwo(s: State, a: Action, b: Action)
    ensures Exec(s, [a, b]) == Apply(Apply(s, a), b)
  {
    hide Apply;
    ExecOne(s, [], a);
    ExecOne(s, [a], b);
    assert [a, b] == [a] + [b] && [a] == [] + [a];
  }

  /** A section does the same whatever calls are waiting, and leaves them waiting. */
  lemma WaitingCallsKept(s: State, calls: map<nat, Call>, call: Call, x: Input)
    ensures var (s1, next) := ContinueSection(s, call, x);
      s1.calls == s.calls && ContinueSection(s.(calls := calls), call, x) == (s1.(calls := calls), next)
  {
    hide WriteBoard, WriteStore, WriteReviews, WriteQueue, WriteWaiting, WriteSignal, Deliver;
    SameChange(s, calls, call, x);
    hide ContinueChange;
  }

  lemma SameChange(s: State, calls: map<nat, Call>, call: Call, x: Input)
    ensures ContinueChange(s.(calls := calls), call, x) == ContinueChange(s, call, x)
  {
    hide DecideOn, FindColumn, BufferOf;
  }

  /** Continuing a call to its end is what `Finish` does. */
  lemma {:induction false} FinishIsRun(s: State, pid: nat, call: Call, x: Input, fuel: nat) returns (n: nat)
    requires pid !in s.calls && SectionsLeft(call) <= fuel + 1
    ensures Exec(s.(calls := s.calls[pid := call]), Continues(pid, x, n)) == Finish(s, call, x, fuel)
    decreases fuel
  {
    hide ContinueSection, SectionsLeft, Exec, Apply;
    WaitingCallsKept(s, s.calls[pid := call], call, x);
    LeftAfter(s, call, x);
    var waiting := s.(calls := s.calls[pid := call]);
    var (s1, next) := ContinueSection(s, call, x);
    ContinueTracks(s, pid, call, x);
    if next.None? || fuel == 0 {
      n := 1;
      ExecFirst(waiting, Continue(pid, x), []);
      ExecNothing(Apply(waiting, Continue(pid, x)));
      assert [Continue(pid, x)] + [] == Continues(pid, x, 1);
    } else {
      n := FinishIsRun(s1, pid, next.value, x, fuel - 1);
      ExecFirst(waiting, Continue(pid, x), Continues(pid, x, n));
      n := n + 1;
    }
  }

  lemma LeftAfter(s: State, call: Call, x: Input)
    ensures var next := ContinueSection(s, call, x).1; next.Some? ==> 1 <= SectionsLeft(next.value) < SectionsLeft(call)
  {
    SectionsRunOut(s, call, x);
  }

  lemma ContinueTracks(s: State, pid: nat, call: Call, x: Input)
    requires pid !in s.calls
    ensures var (s1, next) := ContinueSection(s, call, x);
      Apply(s.(calls := s.calls[pid := call]), Continue(pid, x))
      == if next.Some? then s1.(calls := s.calls[pid := next.value]) else s1
  {
    hide ContinueSection;
    WaitingCallsKept(s, s.calls[pid := call], call, x);
    assert s.calls[pid := call] - {pid} == s.calls;
    if ContinueSection(s, call, x).1.Some? {
      assert s.calls[pid := call][pid := ContinueSection(s, call, x).1.value]
        == s.calls[pid := ContinueSection(s, call, x).1.value];
    }
  }

  lemma BeginTracks(s: State, pid: nat, op: Op, x: Input)
    requires pid !in s.calls
    ensures var (s1, next) := BeginSection(s, op, x);
      s1.calls == s.calls
      && Apply(s, Begin(pid, op, x)) == if next.Some? then s1.(calls := s.calls[pid := next.value]) else s1
  {
    hide BeginChange, WriteBoard, WriteStore, WriteReviews, WriteQueue, WriteWaiting, WriteSignal;
    assert s.calls - {pid} == s.calls;
  }

  /**
   * Every undisturbed call is a run of the interleaved machine: begin it under a free number and
   * continue it, with no other action in between, until it is done.
   */
  lemma WholeIsARun(s: State, pid: nat, op: Op, x: Input) returns (n: nat)
    requires pid !in s.calls
    ensures Exec(s, [Begin(pid, op, x)] + Continues(pid, x, n)) == Apply(s, Whole(op, x))
  {
    hide BeginSection, Finish, SectionsLeft;
    BeginTracks(s, pid, op, x);
    var (s1, next) := BeginSection(s, op, x);
    FirstLeft(s, op, x);
    if next.None? {
      n := 0;
    } else {
      n := FinishIsRun(s1, pid, next.value, x, CALL_SECTIONS);
    }
    ExecFirst(s, Begin(pid, op, x), Continues(pid, x, n));
  }

  lemma FirstLeft(s: State, op: Op, x: Input)
    ensures var next := BeginSection(s, op, x).1; next.Some? ==> SectionsLeft(next.value) < CALL_SECTIONS
  {
    FirstSection(s, op, x);
  }
}
