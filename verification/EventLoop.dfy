/** The event loop, its queue of pending tasks and its wakeup descriptor. */
module EventLoop {
  import opened Sequences

  type Task = int

  /** The counter of an eventfd stops one below the largest 64-bit value. */
  const MAX_COUNTER: nat := 0xffff_ffff_ffff_fffe

  /** Where the loop thread stands in `loop`. */
  datatype LoopPc =
    | Check                       // about to test quit_
    | AtPoll                      // in, or about to enter, the poll
    | Handling(wakeReady: bool)   // running handlers; is the wakeup channel's still to come?
    | Swapping                    // about to swap the pending tasks out
    | Running(left: seq<Task>)    // doingPendingTasks_, with the tasks left of the batch
    | Exited

  /** Where another thread stands. */
  datatype Poster =
    | Outside
    | Pushed                      // in queueInLoop, after the push and before the wakeup
    | QuitSet                     // in quit, after the store and before the wakeup

  /** `queued` and `executed` are history. */
  datatype State = State(
    pending: seq<Task>, doing: bool, quit: bool, counter: nat, pc: LoopPc,
    posters: map<nat, Poster>, queued: seq<Task>, executed: seq<Task>)

  datatype Label =
    | TestQuit
    | PollReturn
    | HandleRead
    | HandlersDone
    | Swap
    | RunNext
    | BatchDone
    | LoopPush(task: Task)        // queueInLoop on the loop thread, by a handler or a task
    | LoopQuit                    // quit on the loop thread
    | Post(th: nat, task: Task)   // the push of queueInLoop on another thread
    | PostWake(th: nat)           // its wakeup
    | PostQuit(th: nat)           // the store of quit on another thread
    | QuitWake(th: nat)           // its wakeup

  /** A write of 1 fails, and leaves the counter alone, when it is at its largest. */
  function Written(counter: nat): nat {
    if counter < MAX_COUNTER then counter + 1 else counter
  }

  predicate InUserCode(pc: LoopPc) {
    pc.Handling? || pc.Running?
  }

  predicate IsAt(posters: map<nat, Poster>, th: nat, at: Poster) {
    th in posters && posters[th] == at
  }

  predicate Enabled(s: State, l: Label) {
    match l
    case TestQuit => s.pc == Check
    case PollReturn => s.pc == AtPoll
    case HandleRead => s.pc == Handling(true)
    case HandlersDone => s.pc == Handling(false)
    case Swap => s.pc == Swapping
    case RunNext => s.pc.Running? && s.pc.left != []
    case BatchDone => s.pc == Running([])
    case LoopPush(_) => InUserCode(s.pc)
    case LoopQuit => InUserCode(s.pc) && !s.quit
    case Post(th, _) => IsAt(s.posters, th, Outside)
    case PostWake(th) => IsAt(s.posters, th, Pushed)
    case PostQuit(th) => IsAt(s.posters, th, Outside) && !s.quit
    case QuitWake(th) => IsAt(s.posters, th, QuitSet)
  }

  function Apply(s: State, l: Label): State
    requires Enabled(s, l)
  {
    match l
    case TestQuit => s.(pc := if s.quit then Exited else AtPoll)
    case PollReturn => s.(pc := Handling(s.counter > 0))
    case HandleRead => s.(counter := 0, pc := Handling(false))
    case HandlersDone => s.(pc := Swapping)
    case Swap => s.(pending := [], doing := true, pc := Running(s.pending))
    case RunNext => s.(executed := s.executed + [s.pc.left[0]], pc := Running(s.pc.left[1..]))
    case BatchDone => s.(doing := false, pc := Check)
    case LoopPush(task) =>
      s.(pending := s.pending + [task], queued := s.queued + [task],
         counter := if s.doing then Written(s.counter) else s.counter)
    case LoopQuit => s.(quit := true)
    case Post(th, task) =>
      s.(pending := s.pending + [task], queued := s.queued + [task], posters := s.posters[th := Pushed])
    case PostWake(th) => s.(counter := Written(s.counter), posters := s.posters[th := Outside])
    case PostQuit(th) => s.(quit := true, posters := s.posters[th := QuitSet])
    case QuitWake(th) => s.(counter := Written(s.counter), posters := s.posters[th := Outside])
  }

  ghost predicate Init(s: State) {
    && s.pending == [] && !s.doing && !s.quit && s.counter == 0 && s.pc == Check
    && (forall th :: th in s.posters ==> s.posters[th] == Outside)
    && s.queued == [] && s.executed == []
  }

  ghost predicate IsRun(s: State, ls: seq<Label>, t: State)
    decreases |ls|
  {
    if ls == [] then t == s
    else
      var m := |ls| - 1;
      exists u :: IsRun(s, ls[..m], u) && Enabled(u, ls[m]) && t == Apply(u, ls[m])
  }

  // ----- invariants -----

  function Batch(pc: LoopPc): seq<Task> {
    if pc.Running? then pc.left else []
  }

  /** The tasks run, then the rest of the batch, then the pending ones are all the
      tasks ever queued, in the order they were pushed. */
  ghost predicate InOrder(s: State) {
    s.executed + Batch(s.pc) + s.pending == s.queued
  }

  ghost predicate WakeupComing(s: State) {
    s.counter > 0 || exists th :: IsAt(s.posters, th, Pushed)
  }

  /** From the swap to the next poll, a pending task means a wakeup given or coming. */
  ghost predicate TaskSeen(s: State) {
    (s.pc.Running? || s.pc == Check || s.pc == AtPoll) && s.pending != [] ==> WakeupComing(s)
  }

  ghost predicate QuitSeen(s: State) {
    s.pc == AtPoll && s.quit ==> s.counter > 0 || exists th :: IsAt(s.posters, th, QuitSet)
  }

  /** When the wakeup handler runs there is something to read. */
  ghost predicate ReadReady(s: State) {
    s.pc == Handling(true) ==> s.counter > 0
  }

  ghost predicate Inv(s: State) {
    InOrder(s) && TaskSeen(s) && QuitSeen(s) && ReadReady(s) && (s.doing <==> s.pc.Running?)
  }

  lemma {:induction false} InOrderStep(s: State, l: Label)
    requires Enabled(s, l) && InOrder(s)
    ensures InOrder(Apply(s, l))
  {
    var t := Apply(s, l);
    match l
    case RunNext => FirstMoves(s.executed, s.pc.left);
    case LoopPush(task) => OneMore(s.executed + Batch(s.pc), s.pending, task);
    case Post(_, task) => OneMore(s.executed + Batch(s.pc), s.pending, task);
    case Swap => assert s.executed + [] == s.executed && s.executed + s.pending + [] == s.executed + s.pending;
    case _ => assert Batch(t.pc) == Batch(s.pc);
  }

  lemma {:induction false} FirstMoves(done: seq<Task>, left: seq<Task>)
    requires left != []
    ensures done + [left[0]] + left[1..] == done + left
  {
  }

  lemma {:induction false} OneMore(a: seq<Task>, b: seq<Task>, task: Task)
    ensures a + (b + [task]) == a + b + [task]
  {
  }

  lemma {:induction false} PostersKept(s: State, l: Label, at: Poster)
    requires Enabled(s, l) && !l.PostWake? && !l.QuitWake? && at != Outside
    requires exists th :: IsAt(s.posters, th, at)
    ensures exists th :: IsAt(Apply(s, l).posters, th, at)
  {
    var th :| IsAt(s.posters, th, at);
    assert IsAt(Apply(s, l).posters, th, at);
  }

  lemma {:induction false} TaskSeenStep(s: State, l: Label)
    requires Enabled(s, l) && TaskSeen(s) && (s.doing <==> s.pc.Running?)
    ensures TaskSeen(Apply(s, l))
  {
    var t := Apply(s, l);
    if l.Post? {
      assert IsAt(t.posters, l.th, Pushed);
    } else if !l.PostWake? && !l.QuitWake? && exists th :: IsAt(s.posters, th, Pushed) {
      PostersKept(s, l, Pushed);
    }
  }

  lemma {:induction false} QuitSeenStep(s: State, l: Label)
    requires Enabled(s, l) && QuitSeen(s)
    ensures QuitSeen(Apply(s, l))
  {
    var t := Apply(s, l);
    if l.PostQuit? {
      assert IsAt(t.posters, l.th, QuitSet);
    } else if !l.PostWake? && !l.QuitWake? && exists th :: IsAt(s.posters, th, QuitSet) {
      PostersKept(s, l, QuitSet);
    }
  }

  lemma {:induction false} StepKeepsInv(s: State, l: Label)
    requires Enabled(s, l) && Inv(s)
    ensures Inv(Apply(s, l))
  {
    InOrderStep(s, l);
    TaskSeenStep(s, l);
    QuitSeenStep(s, l);
    hide InOrder, TaskSeen, QuitSeen;
  }

  lemma {:induction false} RunKeepsInv(s: State, ls: seq<Label>, t: State)
    requires Init(s) && IsRun(s, ls, t)
    ensures Inv(t)
    decreases |ls|
  {
    hide Enabled, Apply;
    if ls != [] {
      var m := |ls| - 1;
      var u :| IsRun(s, ls[..m], u) && Enabled(u, ls[m]) && t == Apply(u, ls[m]);
      hide Inv;
      RunKeepsInv(s, ls[..m], u);
      StepKeepsInv(u, ls[m]);
    }
  }

  // ----- what every run keeps -----

  /** At the poll, a pending task means that the poll will return: the counter is
      positive, or some thread is between its push and its wakeup. The same for quit. */
  lemma {:induction false} NothingLostAtPoll(s: State, ls: seq<Label>, t: State)
    requires Init(s) && IsRun(s, ls, t) && t.pc == AtPoll
    ensures t.pending != [] ==> t.counter > 0 || exists th :: IsAt(t.posters, th, Pushed)
    ensures t.quit ==> t.counter > 0 || exists th :: IsAt(t.posters, th, QuitSet)
  {
    hide IsRun, Init, InOrder;
    RunKeepsInv(s, ls, t);
  }

  /** The tasks run are the first tasks queued, each once, in push order; what is
      neither run nor pending is the rest of the running batch. */
  lemma {:induction false} RunInPushOrder(s: State, ls: seq<Label>, t: State)
    requires Init(s) && IsRun(s, ls, t)
    ensures t.executed <= t.queued
    ensures t.queued[|t.executed|..] == Batch(t.pc) + t.pending
    ensures t.pc == Handling(true) ==> t.counter > 0
  {
    hide IsRun, Init, TaskSeen, QuitSeen;
    RunKeepsInv(s, ls, t);
    assert t.executed + Batch(t.pc) + t.pending == t.executed + (Batch(t.pc) + t.pending);
  }

  predicate OfLoop(l: Label) {
    l.TestQuit? || l.PollReturn? || l.HandleRead? || l.HandlersDone? || l.Swap? || l.RunNext? || l.BatchDone?
  }

  lemma {:induction false} RunSnoc(s: State, ls: seq<Label>, t: State, l: Label)
    requires IsRun(s, ls, t) && Enabled(t, l)
    ensures IsRun(s, ls + [l], Apply(t, l))
  {
    assert (ls + [l])[..|ls|] == ls;
  }

  /** A run that the loop thread makes alone. */
  ghost predicate LoopRun(s: State, ls: seq<Label>, t: State) {
    IsRun(s, ls, t) && forall i :: 0 <= i < |ls| ==> OfLoop(ls[i])
  }

  lemma {:induction false} LoopStep(s: State, ls: seq<Label>, t: State, l: Label) returns (more: seq<Label>)
    requires LoopRun(s, ls, t) && Enabled(t, l) && OfLoop(l)
    ensures LoopRun(s, more, Apply(t, l))
  {
    hide IsRun;
    RunSnoc(s, ls, t, l);
    more := ls + [l];
  }

  /** The loop thread alone runs what is left of its batch. */
  lemma {:induction false} FinishBatch(s: State, ls: seq<Label>, t: State) returns (more: seq<Label>, u: State)
    requires LoopRun(s, ls, t) && t.pc.Running?
    ensures LoopRun(s, more, u)
    ensures u.pc == Check && u.executed == t.executed + t.pc.left
    ensures u.pending == t.pending && u.queued == t.queued && u.quit == t.quit && u.counter == t.counter
    decreases |t.pc.left|
  {
    hide LoopRun;
    if t.pc.left == [] {
      more := LoopStep(s, ls, t, BatchDone);
      u := Apply(t, BatchDone);
    } else {
      more := LoopStep(s, ls, t, RunNext);
      var v := Apply(t, RunNext);
      more, u := FinishBatch(s, more, v);
      assert t.pc.left == [t.pc.left[0]] + t.pc.left[1..];
      assert v.executed + v.pc.left == t.executed + t.pc.left;
    }
  }

  /** From the poll with a positive counter to the start of the batch. */
  lemma {:induction false} LoopSwaps(t: State) returns (more: seq<Label>, u: State)
    requires t.pc == AtPoll && t.counter > 0
    ensures LoopRun(t, more, u)
    ensures u.pc == Running(t.pending) && u.pending == [] && u.executed == t.executed && u.queued == t.queued
    ensures u.counter == 0 && u.quit == t.quit
  {
    assert LoopRun(t, [], t);
    hide LoopRun;
    more := LoopStep(t, [], t, PollReturn);
    var t1 := Apply(t, PollReturn);
    more := LoopStep(t, more, t1, HandleRead);
    var t2 := Apply(t1, HandleRead);
    more := LoopStep(t, more, t2, HandlersDone);
    var t3 := Apply(t2, HandlersDone);
    more := LoopStep(t, more, t3, Swap);
    u := Apply(t3, Swap);
  }

  /** From the poll, with the wakeup given, the loop thread alone comes to have run
      every task queued so far. Then the counter is zero, so the next poll sleeps. */
  lemma {:induction false} LoopDrains(s: State, ls: seq<Label>, t: State) returns (more: seq<Label>, u: State)
    requires Init(s) && IsRun(s, ls, t) && t.pc == AtPoll && t.counter > 0
    ensures LoopRun(t, more, u)
    ensures u.executed == t.queued && u.pending == [] && u.pc == Check
    ensures u.counter == 0 && u.quit == t.quit
  {
    RunInPushOrder(s, ls, t);
    hide IsRun, Init, LoopRun;
    assert t.queued == t.executed + t.pending by {
      assert t.queued == t.executed + t.queued[|t.executed|..];
      assert Batch(t.pc) + t.pending == t.pending;
    }
    more, u := LoopSwaps(t);
    more, u := FinishBatch(t, more, u);
  }

  /** A quit that has been made ends the loop after the tasks queued so far: the loop is
      at the poll, the poll returns, and the loop thread alone comes to leave. */
  lemma {:induction false} QuitEndsLoop(s: State, ls: seq<Label>, t: State) returns (more: seq<Label>, u: State)
    requires Init(s) && IsRun(s, ls, t) && t.pc == AtPoll && t.quit
    requires forall th :: !IsAt(t.posters, th, QuitSet)
    ensures t.counter > 0
    ensures LoopRun(t, more, u) && u.pc == Exited && u.executed == t.queued
  {
    NothingLostAtPoll(s, ls, t);
    hide IsRun, Init, LoopRun;
    more, u := LoopDrains(s, ls, t);
    more := LoopStep(t, more, u, TestQuit);
    u := Apply(u, TestQuit);
  }

  // ----- what a run does, told by its labels -----

  /** The tasks that the steps push, in order. */
  function PushedBy(ls: seq<Label>): seq<Task> {
    if ls == [] then []
    else
      var l := ls[|ls| - 1];
      PushedBy(ls[..|ls| - 1]) + if l.LoopPush? || l.Post? then [l.task] else []
  }

  predicate IsQuit(l: Label) {
    l.LoopQuit? || l.PostQuit?
  }

  /** Some step is a call of `quit`. */
  predicate QuitCalled(ls: seq<Label>) {
    ls != [] && (IsQuit(ls[|ls| - 1]) || QuitCalled(ls[..|ls| - 1]))
  }

  /** What is queued is what was pushed, in order, and the flag is set exactly if some
      thread has called `quit`. */
  lemma {:induction false} ToldByLabels(s: State, ls: seq<Label>, t: State)
    requires Init(s) && IsRun(s, ls, t)
    ensures t.queued == PushedBy(ls)
    ensures t.quit <==> QuitCalled(ls)
    decreases |ls|
  {
    if ls != [] {
      var m := |ls| - 1;
      var u :| IsRun(s, ls[..m], u) && Enabled(u, ls[m]) && t == Apply(u, ls[m]);
      hide IsRun, Enabled, Apply;
      ToldByLabels(s, ls[..m], u);
      StepTold(u, ls[m]);
    }
  }

  lemma {:induction false} StepTold(s: State, l: Label)
    requires Enabled(s, l)
    ensures Apply(s, l).queued == s.queued + if l.LoopPush? || l.Post? then [l.task] else []
    ensures Apply(s, l).quit <==> s.quit || IsQuit(l)
  {
  }

  /** The flag `doingPendingTasks_` is set exactly while tasks are being run. */
  lemma {:induction false} DoingWhileRunning(s: State, ls: seq<Label>, t: State)
    requires Init(s) && IsRun(s, ls, t)
    ensures t.doing <==> t.pc.Running?
    decreases |ls|
  {
    if ls != [] {
      var m := |ls| - 1;
      var u :| IsRun(s, ls[..m], u) && Enabled(u, ls[m]) && t == Apply(u, ls[m]);
      hide IsRun, Enabled, Apply;
      DoingWhileRunning(s, ls[..m], u);
      DoingStep(u, ls[m]);
    }
  }

  lemma {:induction false} DoingStep(s: State, l: Label)
    requires Enabled(s, l) && (s.doing <==> s.pc.Running?)
    ensures Apply(s, l).doing <==> Apply(s, l).pc.Running?
  {
  }

  /** With the flag set, a loop that is not at the poll never comes to it again. */
  lemma {:induction false} NoPollAgain(t: State, more: seq<Label>, u: State)
    requires IsRun(t, more, u) && t.quit && t.pc != AtPoll
    ensures u.quit && u.pc != AtPoll
    decreases |more|
  {
    if more != [] {
      var m := |more| - 1;
      var v :| IsRun(t, more[..m], v) && Enabled(v, more[m]) && u == Apply(v, more[m]);
      hide IsRun, Enabled, Apply;
      NoPollAgain(t, more[..m], v);
      NoPollStep(v, more[m]);
    }
  }

  lemma {:induction false} NoPollStep(t: State, l: Label)
    requires Enabled(t, l) && t.quit && t.pc != AtPoll
    ensures Apply(t, l).quit && Apply(t, l).pc != AtPoll
  {
  }

  /** After `quit` on the loop thread the loop does not poll again, whatever other threads
      do. The loop thread alone comes to leave: quitting in a handler it first runs the
      tasks pending then, quitting in a task it runs the rest of the batch. */
  lemma {:induction false} LoopQuitEndsLoop(s: State, ls: seq<Label>, t: State) returns (more: seq<Label>, u: State)
    requires Init(s) && IsRun(s, ls, t) && ls != [] && ls[|ls| - 1] == LoopQuit
    ensures t.quit && InUserCode(t.pc)
    ensures forall ms, v :: IsRun(t, ms, v) ==> v.pc != AtPoll
    ensures LoopRun(t, more, u) && u.pc == Exited
    ensures u.executed == t.executed + if t.pc.Running? then t.pc.left else t.pending
  {
    ToldByLabels(s, ls, t);
    assert IsQuit(ls[|ls| - 1]);
    QuitInUserCode(s, ls, t);
    RunKeepsInv(s, ls, t);
    hide Init;
    forall ms, v | IsRun(t, ms, v) ensures v.pc != AtPoll {
      NoPollAgain(t, ms, v);
    }
    assert LoopRun(t, [], t);
    hide IsRun, LoopRun, Inv;
    more, u := [], t;
    if t.pc.Handling? {
      more, u := FinishHandlers(t);
    }
    more, u := FinishBatch(t, more, u);
    more := LoopStep(t, more, u, TestQuit);
    u := Apply(u, TestQuit);
  }

  lemma {:induction false} QuitInUserCode(s: State, ls: seq<Label>, t: State)
    requires IsRun(s, ls, t) && ls != [] && ls[|ls| - 1] == LoopQuit
    ensures InUserCode(t.pc)
  {
  }

  lemma {:induction false} FinishHandlers(t: State) returns (more: seq<Label>, u: State)
    requires t.pc.Handling?
    ensures LoopRun(t, more, u) && u.pc == Running(t.pending) && u.executed == t.executed && u.quit == t.quit
  {
    assert LoopRun(t, [], t);
    hide LoopRun;
    more, u := [], t;
    if t.pc == Handling(true) {
      more := LoopStep(t, more, u, HandleRead);
      u := Apply(u, HandleRead);
    }
    more := LoopStep(t, more, u, HandlersDone);
    u := Apply(u, HandlersDone);
    more := LoopStep(t, more, u, Swap);
    u := Apply(u, Swap);
  }

  // ----- what is lost at the end -----

  lemma {:induction false} ExitedStays(t: State, more: seq<Label>, u: State)
    requires IsRun(t, more, u) && t.pc == Exited && t.executed + t.pending == t.queued
    ensures u.pc == Exited && u.executed == t.executed && u.executed + u.pending == u.queued && t.pending <= u.pending
    decreases |more|
  {
    if more != [] {
      var m := |more| - 1;
      var v :| IsRun(t, more[..m], v) && Enabled(v, more[m]) && u == Apply(v, more[m]);
      hide IsRun, Enabled, Apply;
      ExitedStays(t, more[..m], v);
      ExitedStep(v, more[m]);
    }
  }

  lemma {:induction false} ExitedStep(t: State, l: Label)
    requires Enabled(t, l) && t.pc == Exited && t.executed + t.pending == t.queued
    ensures var u := Apply(t, l);
            u.pc == Exited && u.executed == t.executed && u.executed + u.pending == u.queued && t.pending <= u.pending
  {
    if l.Post? {
      OneMore(t.executed, t.pending, l.task);
    }
  }

  /** Once the loop has left, the tasks run are those run so far, whatever other threads
      still do: the pending ones, and all that are queued later, never run. */
  lemma {:induction false} PendingIsLost(s: State, ls: seq<Label>, t: State, more: seq<Label>, u: State)
    requires Init(s) && IsRun(s, ls, t) && t.pc == Exited && IsRun(t, more, u)
    ensures u.executed == t.executed && t.pending <= u.pending
    ensures u.queued == t.executed + u.pending
  {
    RunInPushOrder(s, ls, t);
    hide IsRun, Init;
    assert t.queued == t.executed + t.queued[|t.executed|..];
    assert Batch(t.pc) + t.pending == t.pending;
    ExitedStays(t, more, u);
  }

  /** A task that another thread queues between the last swap and the test of the flag is
      lost, with its wakeup given. */
  lemma {:induction false} QuitLosesTask(s: State, th: nat, task: Task) returns (ls: seq<Label>, t: State)
    requires Init(s) && th in s.posters
    ensures IsRun(s, ls, t) && t.pc == Exited && t.pending == [task] && t.executed == [] && t.counter == 1
  {
    ls, t := QuitInPoll(s, th);
    hide IsRun;
    ls, t := Next(s, ls, t, HandleRead);
    ls, t := Next(s, ls, t, HandlersDone);
    ls, t := Next(s, ls, t, Swap);
    ls, t := Next(s, ls, t, BatchDone);
    ls, t := Next(s, ls, t, Post(th, task));
    ls, t := Next(s, ls, t, PostWake(th));
    ls, t := Next(s, ls, t, TestQuit);
  }

  lemma {:induction false} QuitInPoll(s: State, th: nat) returns (ls: seq<Label>, t: State)
    requires Init(s) && th in s.posters
    ensures IsRun(s, ls, t) && t == s.(quit := true, counter := 1, pc := Handling(true))
  {
    ls, t := [], s;
    assert IsRun(s, ls, t);
    hide IsRun;
    ls, t := Next(s, ls, t, TestQuit);
    ls, t := Next(s, ls, t, PostQuit(th));
    ls, t := Next(s, ls, t, QuitWake(th));
    ls, t := Next(s, ls, t, PollReturn);
    assert t.posters == s.posters;
  }

  lemma {:induction false} Next(s: State, ls: seq<Label>, t: State, l: Label) returns (more: seq<Label>, u: State)
    requires IsRun(s, ls, t) && Enabled(t, l)
    ensures IsRun(s, more, u) && u == Apply(t, l)
  {
    RunSnoc(s, ls, t, l);
    more, u := ls + [l], Apply(t, l);
  }

  // ----- the class -----

  /** The loop object. A method is one step of the source: a section under `mutex_`,
      a system call on the wakeup descriptor, or code of the loop thread alone. */
  class Loop {
    var pendingTasks: seq<Task>
    var doingPendingTasks: bool
    var quit: bool
    var wakeupCounter: nat
    ghost var pc: LoopPc
    ghost var posters: map<nat, Poster>
    ghost var queued: seq<Task>
    ghost var executed: seq<Task>

    ghost function View(): State
      reads this
    {
      State(pendingTasks, doingPendingTasks, quit, wakeupCounter, pc, posters, queued, executed)
    }

    constructor (ghost threads: set<nat>)
      ensures Init(View()) && Inv(View()) && posters.Keys == threads
    {
      pendingTasks, doingPendingTasks, quit, wakeupCounter := [], false, false, 0;
      pc, posters, queued, executed := Check, map th | th in threads :: Outside, [], [];
    }

    method Wakeup()
      modifies this`wakeupCounter
      ensures wakeupCounter == Written(old(wakeupCounter))
      ensures old(wakeupCounter) <= 0xffff_ffff_ffff_fffd ==> wakeupCounter == old(wakeupCounter) + 1
      ensures old(wakeupCounter) >= 0xffff_ffff_ffff_fffe ==> wakeupCounter == old(wakeupCounter)
    {
      if wakeupCounter < MAX_COUNTER {
        wakeupCounter := wakeupCounter + 1;
      }
    }

    /** `queueInLoop` on the loop thread, where push and wakeup have no poll between them. */
    method QueueInLoopThread(task: Task)
      requires Inv(View()) && (pc.Handling? || pc.Running?)
      modifies this
      ensures View() == Apply(old(View()), LoopPush(task)) && Inv(View())
      ensures pendingTasks == old(pendingTasks) + [task] && doingPendingTasks == old(doingPendingTasks)
      ensures wakeupCounter == if doingPendingTasks then Written(old(wakeupCounter)) else old(wakeupCounter)
    {
      StepKeepsInv(View(), LoopPush(task));
      pendingTasks := pendingTasks + [task];
      queued := queued + [task];
      if doingPendingTasks {
        Wakeup();
      }
    }

    /** The locked section of `queueInLoop` on another thread. */
    method PushFromThread(ghost th: nat, task: Task)
      requires Inv(View()) && IsAt(posters, th, Outside)
      modifies this
      ensures View() == Apply(old(View()), Post(th, task)) && Inv(View())
      ensures pendingTasks == old(pendingTasks) + [task] && wakeupCounter == old(wakeupCounter)
    {
      StepKeepsInv(View(), Post(th, task));
      pendingTasks := pendingTasks + [task];
      queued := queued + [task];
      posters := posters[th := Pushed];
    }

    /** The wakeup that follows it. */
    method WakeFromThread(ghost th: nat)
      requires Inv(View()) && IsAt(posters, th, Pushed)
      modifies this
      ensures View() == Apply(old(View()), PostWake(th)) && Inv(View())
      ensures wakeupCounter == Written(old(wakeupCounter)) && pendingTasks == old(pendingTasks)
    {
      StepKeepsInv(View(), PostWake(th));
      Wakeup();
      posters := posters[th := Outside];
    }

    /** `quit` on the loop thread, which gives no wakeup. */
    method QuitOnLoop()
      requires Inv(View()) && (pc.Handling? || pc.Running?) && !quit
      modifies this
      ensures View() == Apply(old(View()), LoopQuit) && Inv(View())
      ensures quit && wakeupCounter == old(wakeupCounter) && pendingTasks == old(pendingTasks)
    {
      StepKeepsInv(View(), LoopQuit);
      quit := true;
    }

    /** The store of `quit` on another thread. */
    method QuitFromThread(ghost th: nat)
      requires Inv(View()) && IsAt(posters, th, Outside) && !quit
      modifies this
      ensures View() == Apply(old(View()), PostQuit(th)) && Inv(View())
      ensures quit && wakeupCounter == old(wakeupCounter) && pendingTasks == old(pendingTasks)
    {
      StepKeepsInv(View(), PostQuit(th));
      quit := true;
      posters := posters[th := QuitSet];
    }

    /** The wakeup that follows it. */
    method WakeForQuit(ghost th: nat)
      requires Inv(View()) && IsAt(posters, th, QuitSet)
      modifies this
      ensures View() == Apply(old(View()), QuitWake(th)) && Inv(View())
      ensures wakeupCounter == Written(old(wakeupCounter)) && quit == old(quit)
    {
      StepKeepsInv(View(), QuitWake(th));
      Wakeup();
      posters := posters[th := Outside];
    }

    /** The read always finds the counter positive, so it never logs an error. */
    method HandleWakeup() returns (value: nat)
      requires Inv(View()) && pc == Handling(true)
      modifies this
      ensures View() == Apply(old(View()), HandleRead) && Inv(View()) && value == old(wakeupCounter) > 0
      ensures wakeupCounter == 0 && pendingTasks == old(pendingTasks)
    {
      StepKeepsInv(View(), HandleRead);
      value := wakeupCounter;
      wakeupCounter := 0;
      pc := Handling(false);
    }

    /** The locked swap of `doPendingTasks`. */
    method SwapTasks() returns (tasks: seq<Task>)
      requires Inv(View()) && pc == Swapping
      modifies this
      ensures View() == Apply(old(View()), Swap) && Inv(View()) && tasks == old(pendingTasks)
      ensures pendingTasks == [] && doingPendingTasks && quit == old(quit) && wakeupCounter == old(wakeupCounter)
    {
      StepKeepsInv(View(), Swap);
      tasks := [];
      tasks, pendingTasks := pendingTasks, tasks;
      doingPendingTasks := true;
      pc := Running(tasks);
    }
  }
}
