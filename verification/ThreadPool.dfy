/** The thread pool as a bounded blocking queue: a state per lock-protected section,
    with one wait set per condition variable. */
module ThreadPool {
  import opened Sequences

  type Task = int

  /** Where a worker stands in `runInThread` and `take`. */
  datatype Worker =
    | Polling                            // about to test running_
    | Entering                           // about to lock the mutex in take
    | Asleep                             // waiting on notEmpty_, not notified
    | Woken                              // woken, about to lock the mutex again
    | Working(ticket: nat, task: Task)   // running the task it took as number `ticket`
    | Gone                               // left runInThread

  /** Where a caller of `runTask` stands. */
  datatype Producer =
    | Idle
    | Calling(task: Task)                // passed the assertion, about to lock the mutex
    | Blocked(task: Task)                // waiting on notFull_, not notified
    | Roused(task: Task)                 // woken, about to lock the mutex again

  /** `accepted`, `taken` and `finished` are history: the tasks pushed, the tasks
      popped, and the ticket numbers of the tasks run to the end. */
  datatype State = State(
    queue: seq<Task>, running: bool, notifiedAll: bool, maxQueueSize: nat,
    workers: map<nat, Worker>, producers: map<nat, Producer>,
    accepted: seq<Task>, taken: seq<Task>, finished: set<nat>)

  ghost predicate IsAsleep(s: State, w: nat) {
    w in s.workers && s.workers[w].Asleep?
  }

  ghost predicate IsBlocked(s: State, p: nat) {
    p in s.producers && s.producers[p].Blocked?
  }

  function WokenWorkers(s: State): set<nat> {
    set w | w in s.workers && s.workers[w].Woken?
  }

  function RousedProducers(s: State): set<nat> {
    set p | p in s.producers && s.producers[p].Roused?
  }

  datatype Label =
    | StartTake(w: nat)
    | Leave(w: nat)
    | Take(w: nat, rouse: Option<nat>)    // one pass under the lock in take
    | Finish(w: nat)
    | Call(p: nat, task: Task)
    | Push(p: nat, wake: Option<nat>)     // one pass under the lock in runTask
    | SpuriousWorker(w: nat)
    | SpuriousProducer(p: nat)
    | StopFlag                            // running_ = false, outside the lock
    | StopNotify                          // notify_all, under the lock

  /** `notify_one` picks some sleeper if there is one, and nobody otherwise. */
  ghost predicate NotifiesWorker(s: State, wake: Option<nat>) {
    match wake
    case Some(w) => IsAsleep(s, w)
    case None => forall w :: !IsAsleep(s, w)
  }

  ghost predicate NotifiesProducer(s: State, rouse: Option<nat>) {
    match rouse
    case Some(p) => IsBlocked(s, p)
    case None => forall p :: !IsBlocked(s, p)
  }

  ghost predicate Enabled(s: State, l: Label) {
    match l
    case StartTake(w) => w in s.workers && s.workers[w].Polling? && s.running
    case Leave(w) => w in s.workers && s.workers[w].Polling? && !s.running
    case Take(w, rouse) =>
      && w in s.workers && (s.workers[w].Entering? || s.workers[w].Woken?)
      && if s.queue == [] then rouse == None else NotifiesProducer(s, rouse)
    case Finish(w) => w in s.workers && s.workers[w].Working?
    case Call(p, _) => p in s.producers && s.producers[p].Idle? && s.running
    case Push(p, wake) =>
      && p in s.producers && (s.producers[p].Calling? || s.producers[p].Roused?)
      && if |s.queue| >= s.maxQueueSize then wake == None else NotifiesWorker(s, wake)
    case SpuriousWorker(w) => IsAsleep(s, w)
    case SpuriousProducer(p) => IsBlocked(s, p)
    case StopFlag => s.running
    case StopNotify => !s.running && !s.notifiedAll
  }

  function WakeOne(ws: map<nat, Worker>, wake: Option<nat>): map<nat, Worker> {
    match wake
    case Some(w) => ws[w := Woken]
    case None => ws
  }

  function RouseOne(ps: map<nat, Producer>, rouse: Option<nat>): map<nat, Producer> {
    match rouse
    case Some(p) => if p in ps && ps[p].Blocked? then ps[p := Roused(ps[p].task)] else ps
    case None => ps
  }

  function WakeAll(ws: map<nat, Worker>): map<nat, Worker> {
    map w | w in ws :: if ws[w].Asleep? then Woken else ws[w]
  }

  ghost function Apply(s: State, l: Label): State
    requires Enabled(s, l)
  {
    match l
    case StartTake(w) => s.(workers := s.workers[w := Entering])
    case Leave(w) => s.(workers := s.workers[w := Gone])
    case Take(w, rouse) =>
      if s.queue == [] then
        s.(workers := s.workers[w := if s.running then Asleep else Polling])
      else
        s.(queue := s.queue[1..],
           workers := s.workers[w := Working(|s.taken|, s.queue[0])],
           producers := RouseOne(s.producers, rouse),
           taken := s.taken + [s.queue[0]])
    case Finish(w) =>
      s.(workers := s.workers[w := Polling], finished := s.finished + {s.workers[w].ticket})
    case Call(p, task) => s.(producers := s.producers[p := Calling(task)])
    case Push(p, wake) =>
      var task := s.producers[p].task;
      if |s.queue| >= s.maxQueueSize then
        s.(producers := s.producers[p := Blocked(task)])
      else
        s.(queue := s.queue + [task],
           producers := s.producers[p := Idle],
           workers := WakeOne(s.workers, wake),
           accepted := s.accepted + [task])
    case SpuriousWorker(w) => s.(workers := s.workers[w := Woken])
    case SpuriousProducer(p) => s.(producers := s.producers[p := Roused(s.producers[p].task)])
    case StopFlag => s.(running := false)
    case StopNotify => s.(workers := WakeAll(s.workers), notifiedAll := true)
  }

  ghost predicate Init(s: State) {
    && s.queue == [] && s.running && !s.notifiedAll && s.maxQueueSize > 0
    && (forall w :: w in s.workers ==> s.workers[w].Polling?)
    && (forall p :: p in s.producers ==> s.producers[p].Idle?)
    && s.accepted == [] && s.taken == [] && s.finished == {}
  }

  ghost predicate IsRun(s: State, ls: seq<Label>, t: State)
    decreases |ls|
  {
    if ls == [] then t == s
    else
      var m := |ls| - 1;
      exists u :: IsRun(s, ls[..m], u) && Enabled(u, ls[m]) && t == Apply(u, ls[m])
  }

  // ----- invariants -----

  /** A sleeper that nobody notified implies a notified worker for every queued task. */
  ghost predicate WorkersAwake(s: State) {
    (exists w :: IsAsleep(s, w)) ==> |s.queue| <= |WokenWorkers(s)|
  }

  /** A blocked caller that nobody notified implies a notified caller for every free slot. */
  ghost predicate ProducersAwake(s: State) {
    (exists p :: IsBlocked(s, p)) ==> s.maxQueueSize - |s.queue| <= |RousedProducers(s)|
  }

  ghost predicate Bounded(s: State) {
    0 < s.maxQueueSize && |s.queue| <= s.maxQueueSize
  }

  ghost predicate Stopped(s: State) {
    && (s.notifiedAll ==> !s.running && forall w :: !IsAsleep(s, w))
    && (s.running ==> forall w :: w in s.workers ==> !s.workers[w].Gone?)
  }

  ghost predicate Holds(s: State, w: nat, i: nat) {
    w in s.workers && s.workers[w].Working? && s.workers[w].ticket == i
  }

  /** First in, first out, and every popped task is in one worker's hands or finished. */
  ghost predicate Conserved(s: State) {
    && s.taken + s.queue == s.accepted
    && (forall i :: i in s.finished ==> i < |s.taken|)
    && (forall w, i: nat :: Holds(s, w, i) ==> i < |s.taken| && s.workers[w].task == s.taken[i] && i !in s.finished)
    && (forall v, w, i :: Holds(s, v, i) && Holds(s, w, i) ==> v == w)
    && (forall i: nat :: i < |s.taken| && i !in s.finished ==> exists w :: Holds(s, w, i))
  }

  ghost predicate Inv(s: State) {
    WorkersAwake(s) && ProducersAwake(s) && Bounded(s) && Stopped(s) && Conserved(s)
  }

  lemma {:induction false} SameSleepers(s: State, t: State)
    requires WorkersAwake(s) && |t.queue| == |s.queue|
    requires forall w :: IsAsleep(t, w) ==> IsAsleep(s, w)
    requires forall w :: w in WokenWorkers(s) ==> w in WokenWorkers(t)
    ensures WorkersAwake(t)
  {
    SubsetCard(WokenWorkers(s), WokenWorkers(t));
  }

  lemma {:induction false} TakeKeepsAwake(s: State, w: nat, rouse: Option<nat>)
    requires Enabled(s, Take(w, rouse)) && WorkersAwake(s)
    ensures WorkersAwake(Apply(s, Take(w, rouse)))
  {
    var t := Apply(s, Take(w, rouse));
    if s.queue != [] {
      assert t.workers == s.workers[w := Working(|s.taken|, s.queue[0])];
      assert WokenWorkers(t) == WokenWorkers(s) - {w};
      forall v | IsAsleep(t, v) ensures IsAsleep(s, v) {
      }
    }
  }

  lemma {:induction false} PushKeepsAwake(s: State, p: nat, wake: Option<nat>)
    requires Enabled(s, Push(p, wake)) && WorkersAwake(s)
    ensures WorkersAwake(Apply(s, Push(p, wake)))
  {
    var t := Apply(s, Push(p, wake));
    if |s.queue| < s.maxQueueSize && wake.Some? {
      assert |t.queue| == |s.queue| + 1 && t.workers == s.workers[wake.value := Woken];
      assert IsAsleep(s, wake.value);
      hide Apply, Enabled;
      OneMoreWoken(s, t, wake.value);
    } else {
      assert t.workers == s.workers;
      assert |t.queue| == |s.queue| || forall w :: !IsAsleep(s, w);
      hide Apply, Enabled;
      SameWorkers(s, t);
    }
  }

  lemma {:induction false} OneMoreWoken(s: State, t: State, w: nat)
    requires WorkersAwake(s) && IsAsleep(s, w)
    requires |t.queue| == |s.queue| + 1 && t.workers == s.workers[w := Woken]
    ensures WorkersAwake(t)
  {
    assert WokenWorkers(t) == WokenWorkers(s) + {w};
    assert w !in WokenWorkers(s);
  }

  lemma {:induction false} SameWorkers(s: State, t: State)
    requires WorkersAwake(s) && t.workers == s.workers
    requires |t.queue| == |s.queue| || forall w :: !IsAsleep(s, w)
    ensures WorkersAwake(t)
  {
    assert WokenWorkers(t) == WokenWorkers(s);
    assert forall w :: IsAsleep(t, w) <==> IsAsleep(s, w);
  }

  lemma {:induction false} WorkersAwakeStep(s: State, l: Label)
    requires Enabled(s, l) && WorkersAwake(s)
    ensures WorkersAwake(Apply(s, l))
  {
    match l
    case Take(w, rouse) => TakeKeepsAwake(s, w, rouse);
    case Push(p, wake) => PushKeepsAwake(s, p, wake);
    case _ =>
      hide WorkersAwake;
      SameSleepers(s, Apply(s, l));
  }

  lemma {:induction false} SameBlocked(s: State, t: State)
    requires ProducersAwake(s) && |t.queue| == |s.queue| && t.maxQueueSize == s.maxQueueSize
    requires forall p :: IsBlocked(t, p) ==> IsBlocked(s, p)
    requires forall p :: p in RousedProducers(s) ==> p in RousedProducers(t)
    ensures ProducersAwake(t)
  {
    SubsetCard(RousedProducers(s), RousedProducers(t));
  }

  lemma {:induction false} TakeKeepsRoused(s: State, w: nat, rouse: Option<nat>)
    requires Enabled(s, Take(w, rouse)) && ProducersAwake(s)
    ensures ProducersAwake(Apply(s, Take(w, rouse)))
  {
    var t := Apply(s, Take(w, rouse));
    if s.queue != [] && rouse.Some? {
      assert IsBlocked(s, rouse.value);
      assert t.producers == s.producers[rouse.value := Roused(s.producers[rouse.value].task)];
      assert RousedProducers(t) == RousedProducers(s) + {rouse.value};
      assert rouse.value !in RousedProducers(s);
    } else {
      assert t.producers == s.producers;
      assert RousedProducers(t) == RousedProducers(s);
      assert forall p :: IsBlocked(t, p) <==> IsBlocked(s, p);
    }
  }

  lemma {:induction false} PushKeepsRoused(s: State, p: nat, wake: Option<nat>)
    requires Enabled(s, Push(p, wake)) && ProducersAwake(s) && Bounded(s)
    ensures ProducersAwake(Apply(s, Push(p, wake)))
  {
    var t := Apply(s, Push(p, wake));
    if |s.queue| < s.maxQueueSize {
      assert t.producers == s.producers[p := Idle];
      assert RousedProducers(t) == RousedProducers(s) - {p};
      forall q | IsBlocked(t, q) ensures IsBlocked(s, q) {
      }
    }
  }

  lemma {:induction false} ProducersAwakeStep(s: State, l: Label)
    requires Enabled(s, l) && ProducersAwake(s) && Bounded(s)
    ensures ProducersAwake(Apply(s, l))
  {
    match l
    case Take(w, rouse) => TakeKeepsRoused(s, w, rouse);
    case Push(p, wake) => PushKeepsRoused(s, p, wake);
    case _ =>
      hide ProducersAwake;
      SameBlocked(s, Apply(s, l));
  }

  lemma {:induction false} StoppedStep(s: State, l: Label)
    requires Enabled(s, l) && Stopped(s)
    ensures Stopped(Apply(s, l))
  {
    var t := Apply(s, l);
    if s.notifiedAll {
      forall w ensures !IsAsleep(t, w) {
        assert !IsAsleep(s, w);
      }
    }
  }

  lemma {:induction false} TakeConserves(s: State, w: nat, rouse: Option<nat>)
    requires Enabled(s, Take(w, rouse)) && Conserved(s) && s.queue != []
    ensures Conserved(Apply(s, Take(w, rouse)))
  {
    var t := Apply(s, Take(w, rouse));
    var n := |s.taken|;
    assert t.workers == s.workers[w := Working(n, s.queue[0])];
    assert s.queue == [s.queue[0]] + s.queue[1..];
    assert t.taken + t.queue == s.taken + s.queue;
    forall v, i ensures Holds(t, v, i) <==> Holds(s, v, i) || (v == w && i == n) {
    }
    assert Holds(t, w, n);
    forall i: nat | i < |t.taken| && i !in t.finished ensures exists v :: Holds(t, v, i) {
      if i < n {
        var v :| Holds(s, v, i);
        assert Holds(t, v, i);
      }
    }
  }

  lemma {:induction false} FinishConserves(s: State, w: nat)
    requires Enabled(s, Finish(w)) && Conserved(s)
    ensures Conserved(Apply(s, Finish(w)))
  {
    var t := Apply(s, Finish(w));
    var n := s.workers[w].ticket;
    assert t.workers == s.workers[w := Polling];
    assert Holds(s, w, n);
    forall v, i ensures Holds(t, v, i) <==> Holds(s, v, i) && i != n {
      if Holds(s, v, i) && v != w {
        assert Holds(t, v, i);
      }
    }
    forall i: nat | i < |t.taken| && i !in t.finished ensures exists v :: Holds(t, v, i) {
      var v :| Holds(s, v, i);
      assert Holds(t, v, i);
    }
  }

  lemma {:induction false} ConservedStep(s: State, l: Label)
    requires Enabled(s, l) && Conserved(s)
    ensures Conserved(Apply(s, l))
  {
    if l.Take? && s.queue != [] {
      TakeConserves(s, l.w, l.rouse);
    } else if l.Finish? {
      FinishConserves(s, l.w);
    } else {
      SameHistory(s, l);
      hide Conserved;
      SameHands(s, Apply(s, l));
    }
  }

  lemma {:induction false} SameHistory(s: State, l: Label)
    requires Enabled(s, l) && !l.Finish? && (l.Take? ==> s.queue == [])
    requires s.taken + s.queue == s.accepted
    ensures var t := Apply(s, l);
            t.taken == s.taken && t.finished == s.finished && t.taken + t.queue == t.accepted
  {
    var t := Apply(s, l);
    if l.Push? && |s.queue| < s.maxQueueSize {
      var task := s.producers[l.p].task;
      assert s.taken + (s.queue + [task]) == (s.taken + s.queue) + [task];
    }
  }

  lemma {:induction false} SameHands(s: State, t: State)
    requires Conserved(s) && t.taken == s.taken && t.finished == s.finished && t.taken + t.queue == t.accepted
    requires forall w, i :: Holds(t, w, i) <==> Holds(s, w, i)
    requires forall w, i :: Holds(t, w, i) ==> t.workers[w].task == s.workers[w].task
    ensures Conserved(t)
  {
    forall i: nat | i < |t.taken| && i !in t.finished ensures exists w :: Holds(t, w, i) {
      var w :| Holds(s, w, i);
      assert Holds(t, w, i);
    }
  }

  lemma {:induction false} StepKeepsInv(s: State, l: Label)
    requires Enabled(s, l) && Inv(s)
    ensures Inv(Apply(s, l))
  {
    WorkersAwakeStep(s, l);
    ProducersAwakeStep(s, l);
    StoppedStep(s, l);
    ConservedStep(s, l);
    hide WorkersAwake, ProducersAwake, Stopped, Conserved;
  }

  lemma {:induction false} InitInv(s: State)
    requires Init(s)
    ensures Inv(s)
  {
  }

  lemma {:induction false} StepKeepsShape(s: State, l: Label)
    requires Enabled(s, l)
    ensures Apply(s, l).maxQueueSize == s.maxQueueSize && Apply(s, l).workers.Keys == s.workers.Keys
  {
  }

  lemma {:induction false} RunKeepsInv(s: State, ls: seq<Label>, t: State)
    requires Init(s) && IsRun(s, ls, t)
    ensures Inv(t) && t.maxQueueSize == s.maxQueueSize && t.workers.Keys == s.workers.Keys
    decreases |ls|
  {
    hide Enabled, Apply, WorkersAwake, ProducersAwake, Stopped, Conserved;
    if ls == [] {
      InitInv(s);
    } else {
      var m := |ls| - 1;
      var u :| IsRun(s, ls[..m], u) && Enabled(u, ls[m]) && t == Apply(u, ls[m]);
      RunKeepsInv(s, ls[..m], u);
      StepKeepsInv(u, ls[m]);
      StepKeepsShape(u, ls[m]);
    }
  }

  // ----- what every run keeps -----

  /** No wakeup is lost: a worker that sleeps un-notified implies a notified worker for
      every queued task, and a caller that is blocked un-notified implies a notified
      caller for every free slot. */
  lemma {:induction false} NoLostWakeup(s: State, ls: seq<Label>, t: State)
    requires Init(s) && IsRun(s, ls, t)
    ensures (exists w :: IsAsleep(t, w)) ==> |t.queue| <= |WokenWorkers(t)|
    ensures (exists p :: IsBlocked(t, p)) ==> t.maxQueueSize - |t.queue| <= |RousedProducers(t)|
  {
    hide IsRun, Init, Conserved, Stopped;
    RunKeepsInv(s, ls, t);
  }

  /** Workers and callers are never all asleep: a sleeping worker and a blocked caller
      mean that some thread has been notified. */
  lemma {:induction false} NeverAllAsleep(s: State, ls: seq<Label>, t: State, w: nat, p: nat)
    requires Init(s) && IsRun(s, ls, t) && IsAsleep(t, w) && IsBlocked(t, p)
    ensures |WokenWorkers(t)| + |RousedProducers(t)| >= t.maxQueueSize > 0
  {
    hide IsRun, Init, Conserved, Stopped;
    RunKeepsInv(s, ls, t);
  }

  /** While the pool runs with at least one worker, queued work or a blocked caller
      means that a thread other than by spurious wakeup can take its next step. */
  lemma {:induction false} Progress(s: State, ls: seq<Label>, t: State) returns (l: Label)
    requires Init(s) && IsRun(s, ls, t) && t.running
    requires exists w :: w in t.workers
    requires t.queue != [] || exists p :: IsBlocked(t, p)
    ensures Enabled(t, l) && (l.StartTake? || l.Take? || l.Finish? || l.Push?)
  {
    RunKeepsInv(s, ls, t);
    hide IsRun, Init, Conserved;
    if w :| w in t.workers && !t.workers[w].Asleep? {
      l := WorkerStep(t, w);
    } else {
      var w :| w in t.workers;
      assert IsAsleep(t, w);
      assert WokenWorkers(t) == {};
      var p :| IsBlocked(t, p);
      assert |RousedProducers(t)| > 0;
      var q := HasElement(RousedProducers(t));
      l := Push(q, Some(w));
    }
  }

  lemma {:induction false} WorkerStep(t: State, w: nat) returns (l: Label)
    requires w in t.workers && !t.workers[w].Asleep? && !t.workers[w].Gone?
    ensures Enabled(t, l) && (l.StartTake? || l.Leave? || l.Take? || l.Finish?) && l.w == w
    ensures l.Leave? ==> !t.running
  {
    match t.workers[w]
    case Polling => l := if t.running then StartTake(w) else Leave(w);
    case Working(_, _) => l := Finish(w);
    case _ =>
      l := Take(w, None);
      if t.queue != [] {
        if p :| IsBlocked(t, p) {
          l := Take(w, Some(p));
        }
      }
  }

  // ----- what a run does, told by its labels -----

  /** The task of the last call that this caller made. */
  function LastCall(ls: seq<Label>, p: nat): Option<Task> {
    if ls == [] then None
    else
      var l := ls[|ls| - 1];
      if l.Call? && l.p == p then Some(l.task) else LastCall(ls[..|ls| - 1], p)
  }

  /** The tasks of all calls. */
  function Called(ls: seq<Label>): multiset<Task> {
    if ls == [] then multiset{} else Called(ls[..|ls| - 1]) + CalledBy(ls[|ls| - 1])
  }

  function CalledBy(l: Label): multiset<Task> {
    if l.Call? then multiset{l.task} else multiset{}
  }

  /** The task in the hands of a caller. */
  function Hand(producers: map<nat, Producer>, p: nat): multiset<Task> {
    if p in producers && !producers[p].Idle? then multiset{producers[p].task} else multiset{}
  }

  ghost function Hands(producers: map<nat, Producer>, ps: set<nat>): multiset<Task> {
    if exists p :: p in ps then
      var p :| p in ps;
      Hand(producers, p) + Hands(producers, ps - {p})
    else multiset{}
  }

  /** The tasks in the hands of all callers. */
  ghost function InHands(s: State): multiset<Task> {
    Hands(s.producers, s.producers.Keys)
  }

  lemma {:induction false} HandsPick(producers: map<nat, Producer>, ps: set<nat>, p: nat)
    requires p in ps
    ensures Hands(producers, ps) == Hand(producers, p) + Hands(producers, ps - {p})
    decreases |ps|
  {
    hide Hand;
    var q :| q in ps && Hands(producers, ps) == Hand(producers, q) + Hands(producers, ps - {q});
    if q != p {
      HandsPick(producers, ps - {q}, p);
      HandsPick(producers, ps - {p}, q);
      assert ps - {p} - {q} == ps - {q} - {p};
    }
  }

  lemma {:induction false} HandsSame(a: map<nat, Producer>, b: map<nat, Producer>, ps: set<nat>)
    requires forall p :: p in ps ==> Hand(a, p) == Hand(b, p)
    ensures Hands(a, ps) == Hands(b, ps)
    decreases |ps|
  {
    hide Hand;
    if p :| p in ps {
      HandsPick(a, ps, p);
      HandsPick(b, ps, p);
      HandsSame(a, b, ps - {p});
    }
  }

  lemma {:induction false} HandsUpdate(a: map<nat, Producer>, b: map<nat, Producer>, ps: set<nat>, p: nat)
    requires p in ps && forall q :: q in ps && q != p ==> Hand(a, q) == Hand(b, q)
    ensures Hands(a, ps) + Hand(b, p) == Hands(b, ps) + Hand(a, p)
  {
    hide Hand, Hands;
    HandsPick(a, ps, p);
    HandsPick(b, ps, p);
    HandsSame(a, b, ps - {p});
  }

  /** A step moves tasks from calls to hands and from hands to the accepted ones only. */
  lemma {:induction false} TasksMove(s: State, l: Label)
    requires Enabled(s, l)
    ensures var t := Apply(s, l);
            multiset(t.accepted) + InHands(t) == multiset(s.accepted) + InHands(s) + CalledBy(l)
  {
    hide Apply, Enabled, Hands, Hand;
    var t := Apply(s, l);
    SameKeys(s, l);
    forall q | !((l.Call? || l.Push?) && q == l.p) ensures Hand(t.producers, q) == Hand(s.producers, q) {
      OtherHand(s, l, q);
    }
    if l.Call? || l.Push? {
      OwnHand(s, l);
      HandsUpdate(s.producers, t.producers, s.producers.Keys, l.p);
      Cancel(multiset(t.accepted), InHands(t), Hand(t.producers, l.p),
             multiset(s.accepted) + CalledBy(l), InHands(s), Hand(s.producers, l.p));
    } else {
      HandsSame(s.producers, t.producers, s.producers.Keys);
    }
  }

  lemma {:induction false} Cancel(
      a: multiset<Task>, all: multiset<Task>, one: multiset<Task>,
      b: multiset<Task>, all': multiset<Task>, one': multiset<Task>)
    requires all' + one == all + one' && a + one == b + one'
    ensures a + all == b + all'
  {
    forall x: Task ensures (a + all)[x] == (b + all')[x] {
      assert (all' + one)[x] == (all + one')[x] && (a + one)[x] == (b + one')[x];
    }
  }

  lemma {:induction false} SameKeys(s: State, l: Label)
    requires Enabled(s, l)
    ensures var t := Apply(s, l);
            && t.producers.Keys == s.producers.Keys && (l.Call? || l.Push? ==> l.p in s.producers.Keys)
            && (!l.Call? && !l.Push? ==> t.accepted == s.accepted)
  {
  }

  lemma {:induction false} OtherHand(s: State, l: Label, q: nat)
    requires Enabled(s, l) && !((l.Call? || l.Push?) && q == l.p)
    ensures Hand(Apply(s, l).producers, q) == Hand(s.producers, q)
  {
    OtherCaller(s, l, q);
    hide Apply, Enabled;
  }

  lemma {:induction false} OtherCaller(s: State, l: Label, q: nat)
    requires Enabled(s, l) && !((l.Call? || l.Push?) && q == l.p)
    ensures var t := Apply(s, l);
            && (q in t.producers <==> q in s.producers)
            && (q in s.producers ==>
                  && (t.producers[q].Idle? <==> s.producers[q].Idle?)
                  && (!s.producers[q].Idle? ==> t.producers[q].task == s.producers[q].task))
  {
  }

  lemma {:induction false} OwnHand(s: State, l: Label)
    requires Enabled(s, l) && (l.Call? || l.Push?)
    ensures var t := Apply(s, l);
            multiset(t.accepted) + Hand(t.producers, l.p) ==
            multiset(s.accepted) + Hand(s.producers, l.p) + CalledBy(l)
  {
  }

  lemma {:induction false} NothingInHands(s: State)
    requires forall p :: p in s.producers ==> s.producers[p].Idle?
    ensures InHands(s) == multiset{}
  {
    HandsNone(s.producers, s.producers.Keys);
  }

  lemma {:induction false} HandsNone(producers: map<nat, Producer>, ps: set<nat>)
    requires forall p :: p in ps ==> Hand(producers, p) == multiset{}
    ensures Hands(producers, ps) == multiset{}
    decreases |ps|
  {
    hide Hand;
    if p :| p in ps {
      HandsPick(producers, ps, p);
      HandsNone(producers, ps - {p});
    }
  }

  /** The task of every call is accepted, once, or still in the hands of its caller. */
  lemma {:induction false} CallsAreKept(s: State, ls: seq<Label>, t: State)
    requires Init(s) && IsRun(s, ls, t)
    ensures multiset(t.accepted) + InHands(t) == Called(ls)
    decreases |ls|
  {
    hide Enabled, Apply, InHands;
    if ls == [] {
      NothingInHands(s);
    } else {
      var m := |ls| - 1;
      var u :| IsRun(s, ls[..m], u) && Enabled(u, ls[m]) && t == Apply(u, ls[m]);
      CallsAreKept(s, ls[..m], u);
      TasksMove(u, ls[m]);
    }
  }

  /** A caller inside `runTask` holds the task that it called with, also after a wait. */
  lemma {:induction false} HoldsLastCall(s: State, ls: seq<Label>, t: State, p: nat)
    requires Init(s) && IsRun(s, ls, t) && p in t.producers && !t.producers[p].Idle?
    ensures LastCall(ls, p) == Some(t.producers[p].task)
    decreases |ls|
  {
    hide Enabled, Apply;
    if ls != [] {
      var m := |ls| - 1;
      var u :| IsRun(s, ls[..m], u) && Enabled(u, ls[m]) && t == Apply(u, ls[m]);
      HeldBefore(u, ls[m], p);
      if !(ls[m].Call? && ls[m].p == p) {
        HoldsLastCall(s, ls[..m], u, p);
      }
    }
  }

  lemma {:induction false} HeldBefore(s: State, l: Label, p: nat)
    requires Enabled(s, l) && p in Apply(s, l).producers && !Apply(s, l).producers[p].Idle?
    ensures var now := Apply(s, l).producers[p];
            if l.Call? && l.p == p then now.task == l.task
            else p in s.producers && !s.producers[p].Idle? && now.task == s.producers[p].task
  {
  }

  /** What is accepted grows by a push to a queue that has room only, and then by the task
      that this caller called with. The caller waits exactly if there is no room. */
  lemma {:induction false} PushAppends(s: State, ls: seq<Label>, t: State, l: Label)
    requires Init(s) && IsRun(s, ls, t) && Enabled(t, l)
    ensures l.Push? ==> LastCall(ls, l.p).Some?
    ensures Apply(t, l).accepted == t.accepted +
              if l.Push? && |t.queue| < t.maxQueueSize then [LastCall(ls, l.p).value] else []
    ensures l.Push? ==>
              && l.p in Apply(t, l).producers
              && Apply(t, l).producers[l.p] ==
                   if |t.queue| < t.maxQueueSize then Idle else Blocked(LastCall(ls, l.p).value)
  {
    if l.Push? {
      HoldsLastCall(s, ls, t, l.p);
    }
    hide IsRun, Init;
  }

  /** A new call may be made by every idle caller until the flag is cleared, and by nobody
      after that. */
  lemma {:induction false} CallIff(s: State, ls: seq<Label>, t: State, p: nat, task: Task)
    requires Init(s) && IsRun(s, ls, t)
    ensures Enabled(t, Call(p, task)) <==> p in t.producers && t.producers[p].Idle? && StopFlag !in ls
  {
    RunningIff(s, ls, t);
    hide IsRun, Init;
  }

  /** Threads wait for nothing else: a worker sleeps from a `take` that found the queue
      empty and the pool running until a push picks it, `stop`, or a spurious wakeup; a
      caller from a push that found the queue full until a `take` picks it, or a spurious
      wakeup. */
  lemma {:induction false} WaitSets(t: State, l: Label, w: nat)
    requires Enabled(t, l)
    ensures IsAsleep(Apply(t, l), w) <==>
            || (IsAsleep(t, w) && l != SpuriousWorker(w) && l != StopNotify && (l.Push? ==> l.wake != Some(w)))
            || (l.Take? && l.w == w && t.queue == [] && t.running)
    ensures IsBlocked(Apply(t, l), w) <==>
            || (IsBlocked(t, w) && l != SpuriousProducer(w) && (l.Take? ==> l.rouse != Some(w)))
            || (l.Push? && l.p == w && |t.queue| >= t.maxQueueSize)
  {
  }

  /** Whoever stops waiting is about to lock the mutex again, a caller with its own task.
      A wait may end spuriously at any time. */
  lemma {:induction false} WaitEnds(t: State, l: Label, w: nat)
    requires Enabled(t, l)
    ensures IsAsleep(t, w) && !IsAsleep(Apply(t, l), w) ==>
              w in Apply(t, l).workers && Apply(t, l).workers[w] == Woken
    ensures IsBlocked(t, w) && !IsBlocked(Apply(t, l), w) ==>
              w in Apply(t, l).producers && Apply(t, l).producers[w] == Roused(t.producers[w].task)
    ensures IsAsleep(t, w) ==> Enabled(t, SpuriousWorker(w))
    ensures IsBlocked(t, w) ==> Enabled(t, SpuriousProducer(w))
  {
  }

  /** The pool runs until the flag is cleared. */
  lemma {:induction false} RunningIff(s: State, ls: seq<Label>, t: State)
    requires Init(s) && IsRun(s, ls, t)
    ensures t.running <==> StopFlag !in ls
    decreases |ls|
  {
    if ls != [] {
      var m := |ls| - 1;
      var u :| IsRun(s, ls[..m], u) && Enabled(u, ls[m]) && t == Apply(u, ls[m]);
      hide IsRun, Enabled, Apply;
      RunningIff(s, ls[..m], u);
      assert ls == ls[..m] + [ls[m]];
      RunningStep(u, ls[m]);
    }
  }

  lemma {:induction false} RunningStep(s: State, l: Label)
    requires Enabled(s, l)
    ensures Apply(s, l).running <==> s.running && l != StopFlag
  {
  }

  // ----- everything accepted gets done -----

  /** A step that the pool takes by itself: of a worker, or of a caller inside `runTask`
      that holds no unanswered wait. */
  predicate Inner(l: Label) {
    l.StartTake? || l.Take? || l.Finish? || l.Push?
  }

  predicate OfWorkers(l: Label) {
    Inner(l) && !l.Push?
  }

  ghost predicate InnerRun(s: State, ls: seq<Label>, t: State) {
    IsRun(s, ls, t) && forall i :: 0 <= i < |ls| ==> Inner(ls[i])
  }

  /** A running state with a worker, reached from s by inner steps. */
  ghost predicate Ahead(s: State, ls: seq<Label>, t: State) {
    InnerRun(s, ls, t) && Inv(t) && t.running && exists w :: w in t.workers
  }

  lemma {:induction false} InnerStep(s: State, ls: seq<Label>, t: State, l: Label)
    requires Ahead(s, ls, t) && Enabled(t, l) && Inner(l)
    ensures Ahead(s, ls + [l], Apply(t, l))
  {
    StepKeepsInv(t, l);
    StepKeepsShape(t, l);
    assert (ls + [l])[..|ls|] == ls;
    hide Inv;
    assert exists w :: w in Apply(t, l).workers by {
      var w :| w in t.workers;
      assert w in Apply(t, l).workers.Keys;
    }
  }

  /** The callers that are inside `runTask`. */
  ghost function Callers(s: State): set<nat> {
    set p | p in s.producers && !s.producers[p].Idle?
  }

  ghost function Busy(s: State): set<nat> {
    set w | w in s.workers && s.workers[w].Working?
  }

  lemma {:induction false} WorkersLeaveCallers(t: State, l: Label)
    requires Enabled(t, l) && OfWorkers(l)
    ensures Callers(Apply(t, l)) == Callers(t) && Apply(t, l).accepted == t.accepted
  {
  }

  function Distance(worker: Worker): nat {
    match worker
    case Working(_, _) => 2
    case Polling => 1
    case _ => 0
  }

  /** One worker that is awake empties the queue. */
  lemma {:induction false} DrainQueue(s: State, ls: seq<Label>, t: State, w: nat) returns (more: seq<Label>, u: State)
    requires Ahead(s, ls, t) && w in t.workers && !t.workers[w].Asleep?
    ensures Ahead(s, more, u) && u.queue == [] && Callers(u) == Callers(t) && u.accepted == t.accepted
    decreases |t.queue|, Distance(t.workers[w])
  {
    more, u := ls, t;
    if t.queue != [] {
      assert !t.workers[w].Gone?;
      hide Inv, InnerRun, Callers;
      var l := WorkerStep(t, w);
      InnerStep(s, ls, t, l);
      WorkersLeaveCallers(t, l);
      more, u := DrainQueue(s, ls + [l], Apply(t, l), w);
    }
  }

  /** With nothing queued, the busy workers finish. */
  lemma {:induction false} FinishBusy(s: State, ls: seq<Label>, t: State) returns (more: seq<Label>, u: State)
    requires Ahead(s, ls, t) && t.queue == []
    ensures Ahead(s, more, u) && u.queue == [] && Callers(u) == Callers(t) && u.accepted == t.accepted
    ensures forall w :: w !in Busy(u)
    decreases |Busy(t)|
  {
    more, u := ls, t;
    hide Inv, InnerRun, Callers;
    if w :| w in Busy(t) {
      InnerStep(s, ls, t, Finish(w));
      WorkersLeaveCallers(t, Finish(w));
      assert Busy(Apply(t, Finish(w))) == Busy(t) - {w};
      more, u := FinishBusy(s, ls + [Finish(w)], Apply(t, Finish(w)));
    }
  }

  /** Queued work means that some worker is awake. */
  lemma {:induction false} AwakeWorker(t: State) returns (w: nat)
    requires Inv(t) && t.queue != [] && exists w :: w in t.workers
    ensures w in t.workers && !t.workers[w].Asleep?
  {
    hide Conserved, ProducersAwake, Stopped;
    if |WokenWorkers(t)| > 0 {
      w := HasElement(WokenWorkers(t));
    } else {
      w :| w in t.workers;
      assert !IsAsleep(t, w);
    }
  }

  /** The workers alone finish every task accepted so far. */
  lemma {:induction false} DrainAll(s: State, ls: seq<Label>, t: State) returns (more: seq<Label>, u: State)
    requires Ahead(s, ls, t)
    ensures Ahead(s, more, u) && u.queue == [] && Callers(u) == Callers(t) && u.accepted == t.accepted
    ensures forall i :: 0 <= i < |u.accepted| ==> i in u.finished
  {
    more, u := ls, t;
    if t.queue != [] {
      var w := AwakeWorker(t);
      hide Ahead;
      more, u := DrainQueue(s, ls, t, w);
    }
    more, u := FinishBusy(s, more, u);
    hide InnerRun, WorkersAwake, ProducersAwake, Stopped;
    forall w, i ensures !Holds(u, w, i) {
      assert w !in Busy(u);
    }
  }

  /** Of the callers inside `runTask`, one can push as soon as the queue has room. */
  lemma {:induction false} NextCaller(t: State) returns (l: Label)
    requires Inv(t) && t.queue == [] && exists p :: p in Callers(t)
    ensures Enabled(t, l) && l.Push? && Callers(Apply(t, l)) < Callers(t)
    ensures |Apply(t, l).accepted| == |t.accepted| + 1 && t.accepted <= Apply(t, l).accepted
  {
    hide Conserved, WorkersAwake, Stopped;
    var p :| p in Callers(t);
    if t.producers[p].Blocked? {
      assert IsBlocked(t, p);
      p := HasElement(RousedProducers(t));
    }
    l := Push(p, None);
    if w :| IsAsleep(t, w) {
      l := Push(p, Some(w));
    }
    assert p in Callers(t) && p !in Callers(Apply(t, l));
  }

  lemma {:induction false} SettleFrom(s: State, ls: seq<Label>, t: State) returns (more: seq<Label>, u: State)
    requires Ahead(s, ls, t)
    ensures Ahead(s, more, u) && u.queue == [] && (forall p :: p !in Callers(u)) && t.accepted <= u.accepted
    ensures forall i :: 0 <= i < |u.accepted| ==> i in u.finished
    ensures |u.accepted| == |t.accepted| + |Callers(t)|
    decreases |Callers(t)|
  {
    hide Ahead, Callers;
    more, u := DrainAll(s, ls, t);
    if exists p :: p in Callers(u) {
      assert Inv(u) by { AheadInv(s, more, u); }
      var l := NextCaller(u);
      InnerStep(s, more, u, l);
      OneCallerLess(u, l);
      more, u := SettleFrom(s, more + [l], Apply(u, l));
    } else {
      EmptyCard(Callers(u));
    }
  }

  /** Inner steps make no call, so they neither add nor lose a task. */
  lemma {:induction false} InnerKeepsTasks(s: State, ls: seq<Label>, t: State)
    requires InnerRun(s, ls, t)
    ensures multiset(t.accepted) + InHands(t) == multiset(s.accepted) + InHands(s)
    decreases |ls|
  {
    hide Enabled, Apply, InHands;
    if ls != [] {
      var m := |ls| - 1;
      var u :| IsRun(s, ls[..m], u) && Enabled(u, ls[m]) && t == Apply(u, ls[m]);
      InnerKeepsTasks(s, ls[..m], u);
      TasksMove(u, ls[m]);
    }
  }

  lemma {:induction false} AheadInv(s: State, ls: seq<Label>, t: State)
    requires Ahead(s, ls, t)
    ensures Inv(t)
  {
    hide Inv;
  }

  lemma {:induction false} OneCallerLess(t: State, l: Label)
    requires Enabled(t, l) && l.Push? && Callers(Apply(t, l)) < Callers(t)
    ensures |Callers(Apply(t, l))| == |Callers(t)| - 1
  {
    var u := Apply(t, l);
    assert Callers(u) == Callers(t) - {l.p};
    assert l.p in Callers(t);
  }

  /** From every state of every run, as long as the pool runs and has a worker, its workers
      and the callers inside `runTask` bring it, with no spurious wakeup and no new call,
      to a state in which every call has returned and every task has been run: those
      accepted before, and the one of each of these callers. */
  lemma {:induction false} EverythingSettles(s: State, ls: seq<Label>, t: State) returns (more: seq<Label>, u: State)
    requires Init(s) && IsRun(s, ls, t) && t.running && exists w :: w in t.workers
    ensures InnerRun(t, more, u) && u.queue == [] && forall p :: p in u.producers ==> u.producers[p].Idle?
    ensures t.accepted <= u.accepted && |u.accepted| == |t.accepted| + |Callers(t)|
    ensures multiset(u.accepted) == multiset(t.accepted) + InHands(t)
    ensures forall i :: 0 <= i < |u.accepted| ==> i in u.finished
  {
    RunKeepsInv(s, ls, t);
    hide Init, Inv;
    more, u := SettleFrom(t, [], t);
    assert forall p :: p in u.producers && !u.producers[p].Idle? ==> p in Callers(u);
    InnerKeepsTasks(t, more, u);
    NothingInHands(u);
  }

  /** The same without the callers: the workers alone run whatever has been accepted. */
  lemma {:induction false} AcceptedIsFinished(s: State, ls: seq<Label>, t: State) returns (more: seq<Label>, u: State)
    requires Init(s) && IsRun(s, ls, t) && t.running && exists w :: w in t.workers
    ensures InnerRun(t, more, u) && u.queue == [] && u.accepted == t.accepted
    ensures forall i :: 0 <= i < |t.accepted| ==> i in u.finished
  {
    RunKeepsInv(s, ls, t);
    hide Init, Inv;
    more, u := DrainAll(t, [], t);
  }

  // ----- stop -----

  /** How many steps a worker still takes once the pool has stopped. */
  function Rank(worker: Worker): nat {
    match worker
    case Gone => 0
    case Polling => 1
    case Working(_, _) => 2
    case _ => 3
  }

  ghost predicate OfWorker(l: Label, w: nat) {
    (l.StartTake? || l.Leave? || l.Take? || l.Finish?) && l.w == w
  }

  /** After `stop` has notified, no worker sleeps; a worker that has not left can step,
      every step of its own brings it nearer to leaving, and no other step sets it back.
      So the joins in `stop` end. */
  lemma {:induction false} StopIsSeenByAll(s: State, ls: seq<Label>, t: State, w: nat)
    requires Init(s) && IsRun(s, ls, t) && t.notifiedAll && w in t.workers
    ensures !t.workers[w].Asleep?
    ensures !t.workers[w].Gone? ==> exists l :: OfWorker(l, w) && Enabled(t, l)
    ensures forall l :: Enabled(t, l) ==>
              var u := Apply(t, l);
              w in u.workers && u.notifiedAll &&
              if OfWorker(l, w) then Rank(u.workers[w]) < Rank(t.workers[w]) else u.workers[w] == t.workers[w]
  {
    RunKeepsInv(s, ls, t);
    hide IsRun, Init, Conserved, WorkersAwake, ProducersAwake;
    assert !IsAsleep(t, w);
    if !t.workers[w].Gone? {
      var l := WorkerStep(t, w);
    }
    forall l | Enabled(t, l)
      ensures var u := Apply(t, l);
              w in u.workers && u.notifiedAll &&
              if OfWorker(l, w) then Rank(u.workers[w]) < Rank(t.workers[w]) else u.workers[w] == t.workers[w]
    {
      StepAfterStop(t, l, w);
    }
  }

  lemma {:induction false} StepAfterStop(t: State, l: Label, w: nat)
    requires Enabled(t, l) && Stopped(t) && t.notifiedAll && w in t.workers
    ensures var u := Apply(t, l);
            w in u.workers && u.notifiedAll &&
            if OfWorker(l, w) then Rank(u.workers[w]) < Rank(t.workers[w]) else u.workers[w] == t.workers[w]
  {
    assert !IsAsleep(t, w);
  }

  // ----- what is lost at the end -----

  ghost predicate AllGone(s: State) {
    forall w :: w in s.workers ==> s.workers[w].Gone?
  }

  lemma {:induction false} GoneStays(t: State, more: seq<Label>, u: State)
    requires IsRun(t, more, u) && AllGone(t)
    ensures AllGone(u) && u.taken == t.taken && u.finished == t.finished
    ensures t.accepted <= u.accepted
    decreases |more|
  {
    if more != [] {
      var m := |more| - 1;
      var v :| IsRun(t, more[..m], v) && Enabled(v, more[m]) && u == Apply(v, more[m]);
      hide IsRun, Enabled, Apply;
      GoneStays(t, more[..m], v);
      GoneStep(v, more[m]);
    }
  }

  lemma {:induction false} GoneStep(t: State, l: Label)
    requires Enabled(t, l) && AllGone(t)
    ensures var u := Apply(t, l);
            AllGone(u) && u.taken == t.taken && u.finished == t.finished && t.accepted <= u.accepted
  {
    assert forall w :: !IsAsleep(t, w);
  }

  /** Once all workers have left, the tasks run are those popped so far, whatever callers
      still do: task i has been run if and only if it had been popped. */
  lemma {:induction false} QueuedIsLost(
      s: State, ls: seq<Label>, t: State, more: seq<Label>, u: State, i: nat)
    requires Init(s) && IsRun(s, ls, t) && AllGone(t) && IsRun(t, more, u)
    ensures t.accepted <= u.accepted && (i < |u.accepted| ==> (i in u.finished <==> i < |t.taken|))
  {
    RunKeepsInv(s, ls, t);
    hide IsRun, Init, WorkersAwake, ProducersAwake, Stopped;
    GoneStays(t, more, u);
    forall w ensures !Holds(t, w, i) {
    }
  }

  lemma {:induction false} Next(s: State, ls: seq<Label>, t: State, l: Label) returns (more: seq<Label>, u: State)
    requires IsRun(s, ls, t) && Enabled(t, l)
    ensures IsRun(s, more, u) && u == Apply(t, l)
  {
    assert (ls + [l])[..|ls|] == ls;
    more, u := ls + [l], Apply(t, l);
  }

  /** The only worker of a pool sees the flag before the task that was accepted. */
  lemma {:induction false} StopLosesTask(s: State, w: nat, p: nat, task: Task) returns (ls: seq<Label>, t: State)
    requires Init(s) && s.workers.Keys == {w} && p in s.producers
    ensures IsRun(s, ls, t) && AllGone(t) && t.accepted == [task] && t.queue == [task] && t.finished == {}
  {
    ls, t := [], s;
    assert IsRun(s, ls, t);
    hide IsRun;
    ls, t := Next(s, ls, t, Call(p, task));
    ls, t := Next(s, ls, t, Push(p, None));
    ls, t := Next(s, ls, t, StopFlag);
    ls, t := Next(s, ls, t, StopNotify);
    ls, t := Next(s, ls, t, Leave(w));
  }

  /** The queue stays within its bound, the tasks popped are the first tasks pushed, in
      order, and every accepted task is in exactly one place. */
  lemma {:induction false} ExactlyOnePlace(s: State, ls: seq<Label>, t: State, i: nat)
    requires Init(s) && IsRun(s, ls, t) && i < |t.accepted|
    ensures |t.queue| <= t.maxQueueSize && t.taken <= t.accepted
    ensures i >= |t.taken| ==> i - |t.taken| < |t.queue| && t.queue[i - |t.taken|] == t.accepted[i]
    ensures i >= |t.taken| ==> i !in t.finished && forall w :: !Holds(t, w, i)
    ensures i < |t.taken| ==> (i in t.finished <==> forall w :: !Holds(t, w, i))
    ensures forall v, w :: Holds(t, v, i) && Holds(t, w, i) ==> v == w && t.workers[v].task == t.accepted[i]
  {
    RunKeepsInv(s, ls, t);
    hide IsRun, Init, WorkersAwake, ProducersAwake, Stopped;
    assert (t.taken + t.queue)[i] == t.accepted[i];
  }

  // ----- the class -----

  /** Workers are numbered from 1. */
  ghost function Started(numThread: nat): (ws: map<nat, Worker>)
    ensures forall w :: w in ws <==> 1 <= w <= numThread
    ensures forall w :: w in ws ==> ws[w] == Polling
  {
    if numThread == 0 then map[] else Started(numThread - 1)[numThread := Polling]
  }

  /** The pool itself. Each method is one section that the source runs under `mutex_`.
      The ghost fields say where each thread stands, so they hold the wait sets of the
      two condition variables, and keep the history. */
  class Pool {
    var taskQueue: seq<Task>
    var running: bool
    const maxQueueSize: nat
    ghost var notifiedAll: bool
    ghost var workers: map<nat, Worker>
    ghost var producers: map<nat, Producer>
    ghost var accepted: seq<Task>
    ghost var taken: seq<Task>
    ghost var finished: set<nat>

    ghost function View(): State
      reads this
    {
      State(taskQueue, running, notifiedAll, maxQueueSize, workers, producers, accepted, taken, finished)
    }

    constructor (numThread: nat, maxQueueSize: nat, ghost callers: set<nat>)
      requires maxQueueSize > 0
      ensures Init(View()) && Inv(View()) && this.maxQueueSize == maxQueueSize
      ensures forall w :: w in workers <==> 1 <= w <= numThread
      ensures producers.Keys == callers
    {
      this.maxQueueSize := maxQueueSize;
      taskQueue, running, notifiedAll := [], true, false;
      workers := Started(numThread);
      producers := map p | p in callers :: Idle;
      accepted, taken, finished := [], [], {};
      new;
      InitInv(View());
    }

    /** One pass under the lock in `runTask`, as far as the wait or the return. */
    method PushSection(ghost p: nat, task: Task) returns (pushed: bool, ghost l: Label)
      requires Inv(View()) && p in producers && producers[p] in {Calling(task), Roused(task)}
      modifies this
      ensures l.Push? && l.p == p && Enabled(old(View()), l)
      ensures View() == Apply(old(View()), l) && Inv(View())
      ensures pushed == (|old(taskQueue)| < maxQueueSize)
      ensures taskQueue == old(taskQueue) + (if pushed then [task] else []) && running == old(running)
      ensures producers == old(producers)[p := if pushed then Idle else Blocked(task)]
    {
      hide Inv;
      pushed := |taskQueue| < maxQueueSize;
      l := Push(p, None);
      if !pushed {
        StepKeepsInv(View(), l);
        producers := producers[p := Blocked(task)];
      } else {
        if w :| IsAsleep(View(), w) {
          l := Push(p, Some(w));
        }
        StepKeepsInv(View(), l);
        taskQueue := taskQueue + [task];
        producers := producers[p := Idle];
        accepted := accepted + [task];
        workers := WakeOne(workers, l.wake);
      }
    }

    /** One pass under the lock in `take`, as far as the wait or the return. */
    method TakeSection(ghost w: nat) returns (task: Option<Task>, ghost l: Label)
      requires Inv(View()) && w in workers && (workers[w].Entering? || workers[w].Woken?)
      modifies this
      ensures l.Take? && l.w == w && Enabled(old(View()), l)
      ensures View() == Apply(old(View()), l) && Inv(View())
      ensures task == if old(taskQueue) == [] then None else Some(old(taskQueue)[0])
      ensures taskQueue == (if task == None then [] else old(taskQueue)[1..]) && running == old(running)
    {
      hide Inv;
      l := Take(w, None);
      task := None;
      if taskQueue == [] {
        StepKeepsInv(View(), l);
        workers := workers[w := if running then Asleep else Polling];
      } else {
        if p :| IsBlocked(View(), p) {
          l := Take(w, Some(p));
        }
        StepKeepsInv(View(), l);
        task := Some(taskQueue[0]);
        workers := workers[w := Working(|taken|, taskQueue[0])];
        taken := taken + [taskQueue[0]];
        taskQueue := taskQueue[1..];
        producers := RouseOne(producers, l.rouse);
      }
    }

    /** The beginning of `stop`, outside the lock. */
    method ClearFlag()
      requires Inv(View()) && running
      modifies this
      ensures View() == Apply(old(View()), StopFlag) && Inv(View())
      ensures !running && taskQueue == old(taskQueue)
    {
      hide Inv;
      StepKeepsInv(View(), StopFlag);
      running := false;
    }

    /** `notify_all` in `stop`, under the lock, after the flag was cleared. */
    method StopSection()
      requires Inv(View()) && !running && !notifiedAll
      modifies this
      ensures View() == Apply(old(View()), StopNotify) && Inv(View())
      ensures !running && taskQueue == old(taskQueue) && forall w :: !IsAsleep(View(), w)
    {
      hide Inv;
      StepKeepsInv(View(), StopNotify);
      workers := WakeAll(workers);
      notifiedAll := true;
    }
  }
}
