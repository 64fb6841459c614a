/** Timers, the ordered set of their expiry times, and the one alarm behind it.
    Times are nanoseconds of one clock that never goes back. */
module Timers {
  import opened Sequences

  const MILLISECOND: int := 1_000_000

  /** A live timer object. */
  datatype TimerState = TimerState(when: int, interval: int, canceled: bool)
  {
    predicate Repeat() {
      interval > 0
    }

    predicate ExpiredAt(now: int) {
      now >= when
    }

    function Restarted(): TimerState {
      this.(when := when + interval)
    }
  }

  class Timer {
    var when: int
    const interval: int
    const repeat: bool
    var canceled: bool

    ghost predicate Valid()
      reads this
    {
      repeat == View().Repeat()
    }

    ghost function View(): TimerState
      reads this
    {
      TimerState(when, interval, canceled)
    }

    constructor (when: int, interval: int)
      ensures Valid() && View() == TimerState(when, interval, false)
    {
      this.when, this.interval, this.repeat, this.canceled := when, interval, interval > 0, false;
    }

    method Expired(now: int) returns (r: bool)
      ensures r == View().ExpiredAt(now)
    {
      r := now >= when;
    }

    /** Moves the expiry on from the last expiry, not from the present time. */
    method Restart()
      requires Valid() && repeat
      modifies this
      ensures Valid() && View() == old(View()).Restarted() && when > old(when)
    {
      when := when + interval;
    }

    method Cancel()
      requires Valid() && !canceled
      modifies this
      ensures Valid() && View() == old(View()).(canceled := true)
    {
      canceled := true;
    }
  }

  // ----- the ordered set -----

  /** A pair of the set: expiry time, then the address of the timer. */
  datatype Entry = Entry(when: int, timer: nat)

  predicate Before(a: Entry, b: Entry) {
    a.when < b.when || (a.when == b.when && a.timer < b.timer)
  }

  ghost predicate Sorted(es: seq<Entry>) {
    forall i, j :: 0 <= i < j < |es| ==> Before(es[i], es[j])
  }

  /** The number of entries before e, which is where `lower_bound` points. */
  function LowerBound(es: seq<Entry>, e: Entry): (k: nat)
    ensures k <= |es|
  {
    if es == [] || !Before(es[0], e) then 0 else 1 + LowerBound(es[1..], e)
  }

  lemma {:induction false} LowerBoundSplits(es: seq<Entry>, e: Entry)
    requires Sorted(es)
    ensures var k := LowerBound(es, e);
            (forall i :: 0 <= i < k ==> Before(es[i], e)) && (forall i :: k <= i < |es| ==> !Before(es[i], e))
    decreases |es|
  {
    if es != [] && Before(es[0], e) {
      assert Sorted(es[1..]);
      LowerBoundSplits(es[1..], e);
      var k := LowerBound(es[1..], e);
      forall i | 0 <= i < |es| ensures i < k + 1 <==> Before(es[i], e) {
        assert i > 0 ==> es[i] == es[1..][i - 1];
      }
    }
  }

  function Insert(es: seq<Entry>, e: Entry): seq<Entry> {
    var k := LowerBound(es, e);
    if k < |es| && es[k] == e then es else es[..k] + [e] + es[k..]
  }

  function Erase(es: seq<Entry>, e: Entry): seq<Entry> {
    var k := LowerBound(es, e);
    if k < |es| && es[k] == e then es[..k] + es[k + 1..] else es
  }

  lemma {:induction false} InsertPlace(es: seq<Entry>, e: Entry)
    requires Sorted(es) && e !in es
    ensures var k := LowerBound(es, e);
            && Insert(es, e) == es[..k] + [e] + es[k..]
            && (forall i :: 0 <= i < k ==> Before(es[i], e)) && (forall i :: k <= i < |es| ==> Before(e, es[i]))
  {
    LowerBoundSplits(es, e);
    var k := LowerBound(es, e);
    forall i | k <= i < |es| ensures Before(e, es[i]) {
      assert es[i] in es;
    }
  }

  lemma {:induction false} InsertIsSet(es: seq<Entry>, e: Entry)
    requires Sorted(es) && e !in es
    ensures Sorted(Insert(es, e)) && (forall x :: x in Insert(es, e) <==> x in es || x == e)
    ensures Insert(es, e) != []
    ensures Insert(es, e)[0] == e || (es != [] && Insert(es, e)[0] == es[0] && Before(es[0], e))
    ensures Insert(es, e)[0] == e ==> forall i :: 0 <= i < |es| ==> Before(e, es[i])
  {
    InsertPlace(es, e);
    var k := LowerBound(es, e);
    hide LowerBound, Insert;
    WithIsSet(es, k, e);
  }

  lemma {:induction false} WithIsSet(es: seq<Entry>, k: nat, e: Entry)
    requires Sorted(es) && k <= |es|
    requires (forall i :: 0 <= i < k ==> Before(es[i], e)) && (forall i :: k <= i < |es| ==> Before(e, es[i]))
    ensures var r := es[..k] + [e] + es[k..];
            && Sorted(r) && (forall x :: x in r <==> x in es || x == e)
            && r[0] == if k == 0 then e else es[0]
  {
    var r := es[..k] + [e] + es[k..];
    assert forall i :: 0 <= i < |r| ==> r[i] == if i < k then es[i] else if i == k then e else es[i - 1];
    forall x | x in es ensures x in r {
      var i :| 0 <= i < |es| && es[i] == x;
      assert r[if i < k then i else i + 1] == x;
    }
    assert r[k] == e;
    forall x | x in r ensures x in es || x == e {
      var i :| 0 <= i < |r| && r[i] == x;
    }
  }

  lemma {:induction false} ErasePlace(es: seq<Entry>, e: Entry)
    requires Sorted(es) && e in es
    ensures var k := LowerBound(es, e);
            k < |es| && es[k] == e && Erase(es, e) == es[..k] + es[k + 1..]
  {
    LowerBoundSplits(es, e);
    hide LowerBound;
    var k := LowerBound(es, e);
    var q :| 0 <= q < |es| && es[q] == e;
    assert !Before(es[q], e);
    assert q >= k;
    assert forall i :: k < i < |es| ==> Before(es[k], es[i]);
    assert q == k;
  }

  lemma {:induction false} EraseIsSet(es: seq<Entry>, e: Entry)
    requires Sorted(es) && e in es
    ensures Sorted(Erase(es, e)) && forall x :: x in Erase(es, e) <==> x in es && x != e
    ensures Erase(es, e) != [] ==> Erase(es, e)[0] in es && es != []
  {
    ErasePlace(es, e);
    hide LowerBound, Erase;
    var k := LowerBound(es, e);
    WithoutIsSet(es, k);
  }

  lemma {:induction false} WithoutIsSet(es: seq<Entry>, k: nat)
    requires Sorted(es) && k < |es|
    ensures var r := es[..k] + es[k + 1..];
            Sorted(r) && (forall x :: x in r <==> x in es && x != es[k]) && (r != [] ==> r[0] in es)
  {
    var r := es[..k] + es[k + 1..];
    assert forall i :: 0 <= i < |r| ==> r[i] == if i < k then es[i] else es[i + 1];
    forall x | x in es && x != es[k] ensures x in r {
      var i :| 0 <= i < |es| && es[i] == x;
      assert i < k ==> r[i] == x;
      assert i > k ==> r[i - 1] == x;
    }
    forall x | x in r ensures x in es && x != es[k] {
      var i :| 0 <= i < |r| && r[i] == x;
      assert i < k ==> Before(x, es[k]);
      assert i >= k ==> Before(es[k], x);
    }
  }

  /** How many leading entries `getExpired(now)` takes: those before (now + 1, null). */
  function ExpiredCount(es: seq<Entry>, now: int): (k: nat)
    ensures k <= |es|
  {
    LowerBound(es, Entry(now + 1, 0))
  }

  /** `getExpired(now)` takes exactly the entries whose time is not after now. */
  lemma {:induction false} ExpiredExactly(es: seq<Entry>, now: int)
    requires Sorted(es)
    ensures var k := ExpiredCount(es, now);
            && (forall e :: e in es[..k] <==> e in es && e.when <= now)
            && (forall e :: e in es[k..] <==> e in es && e.when > now)
            && Sorted(es[..k]) && Sorted(es[k..])
  {
    LowerBoundSplits(es, Entry(now + 1, 0));
    var k := ExpiredCount(es, now);
    hide LowerBound, ExpiredCount;
    CutAt(es, k, now);
  }

  lemma {:induction false} CutAt(es: seq<Entry>, k: nat, now: int)
    requires Sorted(es) && k <= |es|
    requires forall i :: 0 <= i < k ==> es[i].when <= now
    requires forall i :: k <= i < |es| ==> es[i].when > now
    ensures (forall e :: e in es[..k] <==> e in es && e.when <= now)
    ensures (forall e :: e in es[k..] <==> e in es && e.when > now)
    ensures Sorted(es[..k]) && Sorted(es[k..])
  {
    var a, b := es[..k], es[k..];
    assert es == a + b;
    assert forall i :: 0 <= i < |a| ==> a[i] == es[i];
    assert forall i :: 0 <= i < |b| ==> b[i] == es[k + i];
  }

  // ----- the timer queue as a state machine -----

  datatype Alarm = Disarmed | Armed(setAt: int, deadline: int)

  /** `timerfdSet`: at least one millisecond from now. */
  function AlarmFor(now: int, when: int): Alarm {
    Armed(now, if when - now < MILLISECOND then now + MILLISECOND else when)
  }

  /** `timerfdRead` takes an alarm that has gone off. If a handler before it in the same poll
      has set a new one, the read finds nothing and the alarm stays. */
  function AfterRead(alarm: Alarm, now: int): Alarm {
    if alarm.Armed? && now >= alarm.deadline then Disarmed else alarm
  }

  /** Between calls, or inside `handleRead` at entry i of its batch. */
  datatype Phase = Idle | Handling(now: int, batch: seq<Entry>, i: nat, inCallback: bool)

  /** What a timer was created with, and the times its callback ran. */
  datatype Record = Record(start: int, interval: int, fired: seq<int>)

  /** `live` holds the timer objects that are not deleted; `records` is history. */
  datatype State = State(
    clock: int, timers: seq<Entry>, live: map<nat, TimerState>, alarm: Alarm, phase: Phase,
    records: map<nat, Record>)

  datatype Label =
    | Tick(d: nat)
    | Add(timer: nat, when: int, interval: int)   // also from a callback
    | Cancel(timer: nat)                          // also from a callback
    | Begin                                       // handleRead up to getExpired, also before the alarm
    | RunCallback
    | EndCallback                                 // restart and re-insert, or delete
    | End                                         // the re-arming at the end

  ghost predicate InBatch(phase: Phase, timer: nat) {
    phase.Handling? && exists q :: phase.i <= q < |phase.batch| && phase.batch[q].timer == timer
  }

  ghost predicate UserCode(phase: Phase) {
    phase.Handling? ==> phase.inCallback
  }

  /** The assumption on callers: a timer is cancelled while it is live, at most once, and
      not by a callback of the batch it is in. */
  ghost predicate Enabled(s: State, l: Label) {
    match l
    case Tick(_) => true
    case Add(timer, _, _) => UserCode(s.phase) && timer !in s.records
    case Cancel(timer) =>
      UserCode(s.phase) && timer in s.live && !s.live[timer].canceled && !InBatch(s.phase, timer)
    case Begin => s.phase.Idle?
    case RunCallback =>
      s.phase.Handling? && !s.phase.inCallback && s.phase.i < |s.phase.batch| &&
      s.phase.batch[s.phase.i].timer in s.live && s.phase.batch[s.phase.i].timer in s.records
    case EndCallback =>
      s.phase.Handling? && s.phase.inCallback && s.phase.i < |s.phase.batch| &&
      s.phase.batch[s.phase.i].timer in s.live
    case End => s.phase.Handling? && !s.phase.inCallback && s.phase.i == |s.phase.batch|
  }

  ghost function Apply(s: State, l: Label): State
    requires Enabled(s, l)
  {
    match l
    case Tick(d) => s.(clock := s.clock + d)
    case Add(timer, when, interval) =>
      var timers := Insert(s.timers, Entry(when, timer));
      s.(timers := timers,
         live := s.live[timer := TimerState(when, interval, false)],
         records := s.records[timer := Record(when, interval, [])],
         alarm := if timers != [] && timers[0] == Entry(when, timer) then AlarmFor(s.clock, when) else s.alarm)
    case Cancel(timer) =>
      s.(timers := Erase(s.timers, Entry(s.live[timer].when, timer)), live := s.live - {timer})
    case Begin =>
      var k := ExpiredCount(s.timers, s.clock);
      s.(timers := s.timers[k..], alarm := AfterRead(s.alarm, s.clock),
         phase := Handling(s.clock, s.timers[..k], 0, false))
    case RunCallback =>
      var timer := s.phase.batch[s.phase.i].timer;
      var r := s.records[timer];
      s.(phase := s.phase.(inCallback := true),
         records := if s.live[timer].canceled then s.records
                    else s.records[timer := r.(fired := r.fired + [s.clock])])
    case EndCallback =>
      var timer := s.phase.batch[s.phase.i].timer;
      var obj := s.live[timer];
      var next := s.(phase := s.phase.(i := s.phase.i + 1, inCallback := false));
      if !obj.canceled && obj.Repeat() then
        next.(live := s.live[timer := obj.Restarted()],
              timers := Insert(s.timers, Entry(obj.Restarted().when, timer)))
      else
        next.(live := s.live - {timer})
    case End =>
      s.(phase := Idle,
         alarm := if s.timers == [] then s.alarm else AlarmFor(s.clock, s.timers[0].when))
  }

  ghost predicate Init(s: State) {
    s.timers == [] && s.live == map[] && s.alarm == Disarmed && s.phase == Idle && s.records == map[]
  }

  ghost predicate IsRun(s: State, ls: seq<Label>, t: State)
    decreases |ls|
  {
    if ls == [] then t == s
    else
      var m := |ls| - 1;
      exists u :: IsRun(s, ls[..m], u) && Enabled(u, ls[m]) && t == Apply(u, ls[m])
  }

  // ----- invariants -----

  /** The expiry of firing k of a timer. */
  function Due(start: int, interval: int, k: nat): int {
    if k == 0 then start else Due(start, interval, k - 1) + interval
  }

  lemma {:induction false} DueIsLinear(start: int, interval: int, k: nat)
    ensures Due(start, interval, k) == start + k * interval
    decreases k
  {
    if k > 0 {
      DueIsLinear(start, interval, k - 1);
      assert k * interval == (k - 1) * interval + interval;
    }
  }

  /** The set is ordered, and each key is its timer's own time. */
  ghost predicate KeysOk(s: State) {
    && Sorted(s.timers)
    && forall e :: e in s.timers ==>
         e.timer in s.live && s.live[e.timer].when == e.when && !s.live[e.timer].canceled && !InBatch(s.phase, e.timer)
  }

  ghost predicate BatchOk(s: State) {
    s.phase.Handling? ==>
      && s.phase.i <= |s.phase.batch| && s.phase.now <= s.clock
      && (s.phase.inCallback ==> s.phase.i < |s.phase.batch|)
      && (forall q, r :: s.phase.i <= q < r < |s.phase.batch| ==> s.phase.batch[q].timer != s.phase.batch[r].timer)
      && forall q :: s.phase.i <= q < |s.phase.batch| ==>
           var e := s.phase.batch[q];
           e.timer in s.live && s.live[e.timer].when == e.when <= s.phase.now && !s.live[e.timer].canceled
  }

  /** A timer whose callback has run but which is neither restarted nor deleted yet. */
  ghost predicate Current(s: State, timer: nat) {
    s.phase.Handling? && s.phase.inCallback && s.phase.i < |s.phase.batch| && s.phase.batch[s.phase.i].timer == timer
  }

  ghost predicate RecordOk(s: State, timer: nat)
    requires timer in s.records
  {
    var r := s.records[timer];
    && (forall k :: 0 <= k < |r.fired| ==> Due(r.start, r.interval, k) <= r.fired[k] <= s.clock)
    && (r.interval <= 0 ==> |r.fired| <= 1)
    && (timer in s.live ==>
          && s.live[timer].interval == r.interval
          && (Current(s, timer) ==> |r.fired| > 0 && s.live[timer].when == Due(r.start, r.interval, |r.fired| - 1))
          && (!Current(s, timer) ==> s.live[timer].when == Due(r.start, r.interval, |r.fired|))
          && (!Current(s, timer) && r.interval <= 0 ==> r.fired == []))
  }

  ghost predicate RecordsOk(s: State) {
    && (forall timer :: timer in s.live ==> timer in s.records)
    && (forall timer :: timer in s.records ==> RecordOk(s, timer))
  }

  /** An alarm is set at least a millisecond ahead, so never to zero, which would disarm
      it. Outside `handleRead`, the alarm of a non-empty set is armed, and no later than
      the earliest time or one millisecond after it was set. */
  ghost predicate AlarmOk(s: State) {
    && (s.alarm.Armed? ==> s.alarm.setAt <= s.clock && s.alarm.deadline >= s.alarm.setAt + MILLISECOND)
    && (s.phase.Idle? && s.timers != [] ==>
          s.alarm.Armed? && s.alarm.deadline <= Later(s.timers[0].when, s.alarm.setAt + MILLISECOND))
  }

  function Later(a: int, b: int): int {
    if a < b then b else a
  }

  /** A live timer is in what is left of the batch, or in the set under its own time. */
  ghost predicate LiveOk(s: State) {
    forall timer :: timer in s.live ==>
      InBatch(s.phase, timer) || Entry(s.live[timer].when, timer) in s.timers
  }

  ghost predicate Inv(s: State) {
    KeysOk(s) && BatchOk(s) && RecordsOk(s) && AlarmOk(s) && LiveOk(s)
  }

  lemma {:induction false} AddKeeps(s: State, timer: nat, when: int, interval: int)
    requires Inv(s) && Enabled(s, Add(timer, when, interval))
    ensures var t := Apply(s, Add(timer, when, interval)); KeysOk(t) && BatchOk(t) && AlarmOk(t)
  {
    hide RecordOk, Insert, LiveOk;
    assert timer !in s.live;
    InsertIsSet(s.timers, Entry(when, timer));
  }

  lemma {:induction false} CancelKeeps(s: State, timer: nat)
    requires Inv(s) && Enabled(s, Cancel(timer))
    ensures var t := Apply(s, Cancel(timer)); KeysOk(t) && BatchOk(t) && AlarmOk(t)
  {
    hide RecordOk, Erase, LiveOk;
    var e := Entry(s.live[timer].when, timer);
    if e in s.timers {
      EraseIsSet(s.timers, e);
      EarliestNoEarlier(s.timers, Erase(s.timers, e));
    } else {
      EraseNothing(s.timers, e);
    }
  }

  lemma {:induction false} EarliestNoEarlier(a: seq<Entry>, b: seq<Entry>)
    requires Sorted(a) && (b != [] ==> b[0] in a)
    ensures b != [] ==> a != [] && a[0].when <= b[0].when
  {
  }

  lemma {:induction false} EraseNothing(es: seq<Entry>, e: Entry)
    requires e !in es
    ensures Erase(es, e) == es
  {
  }

  lemma {:induction false} BeginKeeps(s: State)
    requires Inv(s) && Enabled(s, Begin)
    ensures var t := Apply(s, Begin); KeysOk(t) && BatchOk(t) && AlarmOk(t)
  {
    hide RecordOk, ExpiredCount, LiveOk;
    ExpiredExactly(s.timers, s.clock);
    var k := ExpiredCount(s.timers, s.clock);
    var t := Apply(s, Begin);
    forall e | e in t.timers ensures !InBatch(t.phase, e.timer) {
      forall q | 0 <= q < k ensures s.timers[..k][q].timer != e.timer {
        assert s.timers[..k][q] in s.timers[..k];
      }
    }
    forall q | 0 <= q < k
      ensures var e := t.phase.batch[q];
              e.timer in t.live && t.live[e.timer].when == e.when <= s.clock && !t.live[e.timer].canceled
    {
      assert t.phase.batch[q] in s.timers[..k];
    }
    forall q, r | 0 <= q < r < k ensures t.phase.batch[q].timer != t.phase.batch[r].timer {
      assert Before(t.phase.batch[q], t.phase.batch[r]);
    }
  }

  lemma {:induction false} EndCallbackKeeps(s: State)
    requires Inv(s) && Enabled(s, EndCallback)
    ensures var t := Apply(s, EndCallback); KeysOk(t) && BatchOk(t) && AlarmOk(t)
  {
    hide RecordOk, Insert, LiveOk;
    var timer := s.phase.batch[s.phase.i].timer;
    assert InBatch(s.phase, timer);
    var obj := s.live[timer];
    var t := Apply(s, EndCallback);
    var e := Entry(obj.Restarted().when, timer);
    forall v | InBatch(t.phase, v) ensures InBatch(s.phase, v) && v != timer {
      var q :| t.phase.i <= q < |t.phase.batch| && t.phase.batch[q].timer == v;
      assert s.phase.batch[q].timer == v;
    }
    assert e !in s.timers;
    InsertIsSet(s.timers, e);
  }

  lemma {:induction false} SetKeeps(s: State, l: Label)
    requires Inv(s) && Enabled(s, l)
    ensures var t := Apply(s, l); KeysOk(t) && BatchOk(t) && AlarmOk(t)
  {
    match l
    case Add(timer, when, interval) => AddKeeps(s, timer, when, interval);
    case Cancel(timer) => CancelKeeps(s, timer);
    case Begin => BeginKeeps(s);
    case EndCallback => EndCallbackKeeps(s);
    case _ => QuietKeeps(s, l);
  }

  lemma {:induction false} QuietKeeps(s: State, l: Label)
    requires Inv(s) && Enabled(s, l) && (l.Tick? || l.RunCallback? || l.End?)
    ensures var t := Apply(s, l); KeysOk(t) && BatchOk(t) && AlarmOk(t)
  {
    hide RecordOk, LiveOk;
    var t := Apply(s, l);
    forall v | InBatch(t.phase, v) ensures InBatch(s.phase, v) {
    }
  }

  /** Firing adds one time, not before the due time, and only to the timer that fires. */
  lemma {:induction false} RecordsKeep(s: State, l: Label)
    requires Inv(s) && Enabled(s, l)
    ensures RecordsOk(Apply(s, l))
  {
    hide Insert, Erase, ExpiredCount, AlarmOk, KeysOk, LiveOk;
    var t := Apply(s, l);
    forall timer | timer in t.records ensures RecordOk(t, timer) {
      if !(l.Add? && l.timer == timer) {
        assert RecordOk(s, timer);
        hide RecordsOk;
        RecordKeeps(s, l, timer);
      }
    }
  }

  lemma {:induction false} RecordKeeps(s: State, l: Label, timer: nat)
    requires BatchOk(s) && Enabled(s, l) && timer in s.records && RecordOk(s, timer)
    requires l.Add? ==> l.timer != timer
    ensures timer in Apply(s, l).records && RecordOk(Apply(s, l), timer)
  {
    hide Insert, Erase, ExpiredCount;
    var t := Apply(s, l);
    var r := s.records[timer];
    if l.RunCallback? && s.phase.batch[s.phase.i].timer == timer {
      assert s.live[timer].when <= s.phase.now <= s.clock;
    } else if l.EndCallback? && s.phase.batch[s.phase.i].timer == timer {
      assert Current(s, timer);
    } else {
      assert t.records[timer] == r;
      assert timer in t.live ==> timer in s.live && t.live[timer] == s.live[timer];
      assert timer in t.live ==> (Current(t, timer) <==> Current(s, timer));
    }
  }

  /** No live timer falls out of both the batch and the set. */
  lemma {:induction false} LiveKeeps(s: State, l: Label)
    requires Inv(s) && Enabled(s, l)
    ensures LiveOk(Apply(s, l))
  {
    match l
    case Begin => LiveTaken(s);
    case Add(timer, when, _) =>
      hide Insert, RecordsOk, AlarmOk;
      InsertIsSet(s.timers, Entry(when, timer));
    case Cancel(timer) =>
      hide Erase, RecordsOk, AlarmOk;
      if Entry(s.live[timer].when, timer) in s.timers {
        EraseIsSet(s.timers, Entry(s.live[timer].when, timer));
      }
    case EndCallback => LiveRestarted(s);
    case End => hide RecordsOk, AlarmOk, KeysOk;
    case _ =>
      hide RecordsOk, AlarmOk, KeysOk;
      forall timer | InBatch(s.phase, timer) ensures InBatch(Apply(s, l).phase, timer) {
      }
  }

  lemma {:induction false} LiveTaken(s: State)
    requires Inv(s) && Enabled(s, Begin)
    ensures LiveOk(Apply(s, Begin))
  {
    hide ExpiredCount, RecordsOk, AlarmOk;
    var k := ExpiredCount(s.timers, s.clock);
    var t := Apply(s, Begin);
    forall timer | timer in t.live ensures InBatch(t.phase, timer) || Entry(t.live[timer].when, timer) in t.timers {
      var e := Entry(s.live[timer].when, timer);
      var i :| 0 <= i < |s.timers| && s.timers[i] == e;
      if i < k {
        assert t.phase.batch[i] == e;
      } else {
        assert t.timers[i - k] == e;
      }
    }
  }

  lemma {:induction false} LiveRestarted(s: State)
    requires Inv(s) && Enabled(s, EndCallback)
    ensures LiveOk(Apply(s, EndCallback))
  {
    hide Insert, RecordsOk, AlarmOk, Before, Sorted;
    var timer := s.phase.batch[s.phase.i].timer;
    var t := Apply(s, EndCallback);
    var e := Entry(s.live[timer].Restarted().when, timer);
    assert InBatch(s.phase, timer);
    assert e !in s.timers;
    InsertIsSet(s.timers, e);
    forall v | InBatch(s.phase, v) && v != timer ensures InBatch(t.phase, v) {
      var q :| s.phase.i <= q < |s.phase.batch| && s.phase.batch[q].timer == v;
      assert t.phase.batch[q].timer == v;
    }
  }

  lemma {:induction false} StepKeepsInv(s: State, l: Label)
    requires Enabled(s, l) && Inv(s)
    ensures Inv(Apply(s, l))
  {
    SetKeeps(s, l);
    RecordsKeep(s, l);
    LiveKeeps(s, l);
    hide KeysOk, BatchOk, RecordsOk, AlarmOk, LiveOk;
  }

  lemma {:induction false} RunKeepsInv(s: State, ls: seq<Label>, t: State)
    requires Init(s) && IsRun(s, ls, t)
    ensures Inv(t)
    decreases |ls|
  {
    hide Enabled, Apply;
    if ls != [] {
      var m := |ls| - 1;
      var u :| IsRun(s, ls[..m], u) && Enabled(u, ls[m]) && t == Apply(u, ls[m]);
      hide Inv;
      RunKeepsInv(s, ls[..m], u);
      StepKeepsInv(u, ls[m]);
    }
  }

  // ----- what every run keeps -----

  /** Firing k of a timer, counted from 0, is never before start + k * interval, and a
      one-shot timer fires at most once. */
  lemma {:induction false} NeverEarlyNeverTwice(s: State, ls: seq<Label>, t: State, timer: nat, k: nat)
    requires Init(s) && IsRun(s, ls, t) && timer in t.records && k < |t.records[timer].fired|
    ensures t.records[timer].fired[k] >= t.records[timer].start + k * t.records[timer].interval
    ensures t.records[timer].interval <= 0 ==> k == 0
  {
    hide IsRun, Init, KeysOk, BatchOk, AlarmOk;
    RunKeepsInv(s, ls, t);
    assert RecordOk(t, timer);
    DueIsLinear(t.records[timer].start, t.records[timer].interval, k);
  }

  /** No drift: after n firings a waiting timer is set for exactly start + n * interval,
      however late the callbacks ran, and that is its key in the set. */
  lemma {:induction false} NeverDrifts(s: State, ls: seq<Label>, t: State, e: Entry)
    requires Init(s) && IsRun(s, ls, t) && e in t.timers
    ensures e.timer in t.records
    ensures var r := t.records[e.timer]; e.when == r.start + |r.fired| * r.interval
    ensures forall e' :: e' in t.timers && e'.timer == e.timer ==> e' == e
  {
    hide IsRun, Init, AlarmOk, BatchOk;
    RunKeepsInv(s, ls, t);
    assert RecordOk(t, e.timer);
    assert !InBatch(t.phase, e.timer);
    assert !Current(t, e.timer) by {
      assert Current(t, e.timer) ==> InBatch(t.phase, e.timer);
    }
    DueIsLinear(t.records[e.timer].start, t.records[e.timer].interval, |t.records[e.timer].fired|);
  }

  /** The alarm is early enough: by the earliest time, or a millisecond after it was set
      if that is later, `handleRead` can run, and it takes every timer that is due. */
  lemma {:induction false} AlarmNeverMissed(s: State, ls: seq<Label>, t: State)
    requires Init(s) && IsRun(s, ls, t) && t.phase.Idle? && t.timers != []
    ensures t.alarm.Armed? && t.alarm.setAt <= t.clock && t.alarm.setAt + 1_000_000 <= t.alarm.deadline
    ensures t.alarm.deadline <= Later(t.timers[0].when, t.alarm.setAt + 1_000_000)
    ensures t.clock >= Later(t.timers[0].when, t.alarm.setAt + 1_000_000) ==>
              && t.clock >= t.alarm.deadline && Enabled(t, Begin)
              && (forall e :: e in t.timers && e.when <= t.clock <==> e in Apply(t, Begin).phase.batch)
              && t.timers[0] in Apply(t, Begin).phase.batch
  {
    hide IsRun, Init, RecordsOk, BatchOk, ExpiredCount;
    RunKeepsInv(s, ls, t);
    ExpiredExactly(t.timers, t.clock);
    assert t.timers[0] in t.timers;
  }

  /** No timer is lost: outside `handleRead` every live timer is in the set under its own
      time, and by that time, or a millisecond after the alarm was set if that is later,
      `handleRead` can run and takes it. */
  lemma {:induction false} LiveTimerIsTaken(s: State, ls: seq<Label>, t: State, timer: nat)
    requires Init(s) && IsRun(s, ls, t) && timer in t.live
    ensures InBatch(t.phase, timer) || Entry(t.live[timer].when, timer) in t.timers
    ensures t.phase.Idle? ==>
              && t.alarm.Armed?
              && (t.clock >= Later(t.live[timer].when, t.alarm.setAt + 1_000_000) ==>
                    && t.clock >= t.alarm.deadline && Enabled(t, Begin)
                    && Entry(t.live[timer].when, timer) in Apply(t, Begin).phase.batch)
  {
    RunKeepsInv(s, ls, t);
    hide IsRun, Init, RecordsOk, BatchOk, ExpiredCount, Apply;
    if t.phase.Idle? {
      var e := Entry(t.live[timer].when, timer);
      var i :| 0 <= i < |t.timers| && t.timers[i] == e;
      assert i > 0 ==> Before(t.timers[0], t.timers[i]);
      AlarmNeverMissed(s, ls, t);
    }
  }

  /** A timer is deleted only by a cancel, or after the one firing of a one-shot timer. */
  lemma {:induction false} DeletedOnlyWhen(s: State, ls: seq<Label>, t: State, l: Label, timer: nat)
    requires Init(s) && IsRun(s, ls, t) && Enabled(t, l) && timer in t.live && timer !in Apply(t, l).live
    ensures timer in t.records
    ensures l == Cancel(timer) || (t.records[timer].interval <= 0 && |t.records[timer].fired| == 1)
  {
    RunKeepsInv(s, ls, t);
    hide IsRun, Init, KeysOk, AlarmOk, LiveOk, Insert, Erase, ExpiredCount;
    assert RecordOk(t, timer);
  }

  // ----- what a run does, told by its labels -----

  /** Every timer has the start and the interval that it was added with. */
  lemma {:induction false} RecordsTold(s: State, ls: seq<Label>, t: State, timer: nat)
    requires Init(s) && IsRun(s, ls, t)
    ensures timer in t.records ==>
              exists i :: 0 <= i < |ls| && ls[i] == Add(timer, t.records[timer].start, t.records[timer].interval)
    ensures forall i :: 0 <= i < |ls| && ls[i].Add? && ls[i].timer == timer ==>
              && timer in t.records
              && t.records[timer].start == ls[i].when && t.records[timer].interval == ls[i].interval
    decreases |ls|
  {
    if ls != [] {
      var m := |ls| - 1;
      var u :| IsRun(s, ls[..m], u) && Enabled(u, ls[m]) && t == Apply(u, ls[m]);
      hide IsRun, Init, Enabled, Apply;
      RecordsTold(s, ls[..m], u, timer);
      StepTold(u, ls[m], timer);
      assert forall i :: 0 <= i < m ==> ls[..m][i] == ls[i];
    }
  }

  lemma {:induction false} StepTold(s: State, l: Label, timer: nat)
    requires Enabled(s, l)
    ensures var t := Apply(s, l);
            if l.Add? && l.timer == timer then
              timer !in s.records && timer in t.records && t.records[timer] == Record(l.when, l.interval, [])
            else
              && (timer in t.records <==> timer in s.records)
              && (timer in s.records ==>
                    && t.records[timer].start == s.records[timer].start
                    && t.records[timer].interval == s.records[timer].interval)
  {
    hide Insert, Erase, ExpiredCount;
  }

  /** A timer fires in the run of its callback only, and then at the present time. */
  lemma {:induction false} FiresNow(s: State, ls: seq<Label>, t: State, l: Label, timer: nat)
    requires Init(s) && IsRun(s, ls, t) && Enabled(t, l) && timer in t.records
    ensures timer in Apply(t, l).records
    ensures Apply(t, l).records[timer].fired == t.records[timer].fired +
              if l.RunCallback? && t.phase.batch[t.phase.i].timer == timer then [t.clock] else []
  {
    RunKeepsInv(s, ls, t);
    hide IsRun, Init, Insert, Erase, ExpiredCount, KeysOk, RecordsOk, AlarmOk, LiveOk;
  }

  /** A timer that is gone, though it once was. */
  ghost predicate IsGone(s: State, timer: nat) {
    timer in s.records && timer !in s.live
  }

  lemma {:induction false} GoneMeans(s: State, timer: nat)
    requires Inv(s) && IsGone(s, timer)
    ensures !InBatch(s.phase, timer) && forall e :: e in s.timers ==> e.timer != timer
  {
    hide RecordsOk, AlarmOk, LiveOk;
  }

  lemma {:induction false} GoneStep(s: State, l: Label, timer: nat)
    requires Inv(s) && Enabled(s, l) && IsGone(s, timer)
    ensures IsGone(Apply(s, l), timer) && Apply(s, l).records[timer] == s.records[timer]
  {
    hide Insert, Erase, ExpiredCount, KeysOk, RecordsOk, AlarmOk, LiveOk;
  }

  lemma {:induction false} GoneStays(t: State, more: seq<Label>, u: State, timer: nat)
    requires Inv(t) && IsGone(t, timer) && IsRun(t, more, u)
    ensures Inv(u) && IsGone(u, timer) && u.records[timer] == t.records[timer]
    decreases |more|
  {
    hide Inv, Enabled, Apply;
    if more != [] {
      var m := |more| - 1;
      var v :| IsRun(t, more[..m], v) && Enabled(v, more[m]) && u == Apply(v, more[m]);
      hide IsRun;
      GoneStays(t, more[..m], v, timer);
      GoneStep(v, more[m], timer);
      StepKeepsInv(v, more[m]);
    }
  }

  /** A cancelled timer is gone for good: whatever happens next, it is in no set and no
      batch, and it never fires again. */
  lemma {:induction false} CancelledNeverFires(
      s: State, ls: seq<Label>, t: State, timer: nat, more: seq<Label>, u: State)
    requires Init(s) && IsRun(s, ls, t) && Enabled(t, Cancel(timer))
    requires IsRun(Apply(t, Cancel(timer)), more, u)
    ensures timer in t.records && timer in u.records && u.records[timer] == t.records[timer]
    ensures timer !in u.live && !InBatch(u.phase, timer) && forall e :: e in u.timers ==> e.timer != timer
  {
    RunKeepsInv(s, ls, t);
    StepKeepsInv(t, Cancel(timer));
    assert timer in t.records;
    hide Inv, IsRun, Init, Erase;
    GoneStays(Apply(t, Cancel(timer)), more, u, timer);
    GoneMeans(u, timer);
  }

  /** What the model assumes of callers, and no more: outside `handleRead` and from
      callbacks any new timer may be added, and any timer that exists may be cancelled
      unless it is in what is left of the batch. */
  lemma {:induction false} CallersMay(
      s: State, ls: seq<Label>, t: State, timer: nat, when: int, interval: int)
    requires Init(s) && IsRun(s, ls, t)
    ensures var user := t.phase.Handling? ==> t.phase.inCallback;
            && (Enabled(t, Add(timer, when, interval)) <==> user && timer !in t.records)
            && (Enabled(t, Cancel(timer)) <==> user && timer in t.live && !InBatch(t.phase, timer))
  {
    RunKeepsInv(s, ls, t);
    hide IsRun, Init, RecordsOk, AlarmOk;
  }

  /** The clock is moved by ticks alone. */
  function Elapsed(ls: seq<Label>): nat {
    if ls == [] then 0
    else Elapsed(ls[..|ls| - 1]) + if ls[|ls| - 1].Tick? then ls[|ls| - 1].d else 0
  }

  lemma {:induction false} ClockTold(s: State, ls: seq<Label>, t: State)
    requires IsRun(s, ls, t)
    ensures t.clock == s.clock + Elapsed(ls)
    decreases |ls|
  {
    if ls != [] {
      var m := |ls| - 1;
      var u :| IsRun(s, ls[..m], u) && Enabled(u, ls[m]) && t == Apply(u, ls[m]);
      hide IsRun, Insert, Erase, ExpiredCount;
      ClockTold(s, ls[..m], u);
    }
  }

  /** Without a cancel the alarm is not only early enough, but not earlier than the
      earliest time either. */
  ghost predicate AlarmExact(s: State) {
    s.phase.Idle? && s.timers != [] ==>
      s.alarm.Armed? && s.alarm.deadline == Later(s.timers[0].when, s.alarm.setAt + MILLISECOND)
  }

  lemma {:induction false} AlarmStep(s: State, l: Label)
    requires Inv(s) && Enabled(s, l) && AlarmExact(s) && !l.Cancel?
    ensures AlarmExact(Apply(s, l))
  {
    hide Insert, RecordsOk, LiveOk, BatchOk, ExpiredCount;
    if l.Add? {
      assert l.timer !in s.live by { AddIsNew(s, l); }
      InsertIsSet(s.timers, Entry(l.when, l.timer));
    }
  }

  lemma {:induction false} AddIsNew(s: State, l: Label)
    requires Inv(s) && Enabled(s, l) && l.Add?
    ensures l.timer !in s.live && Entry(l.when, l.timer) !in s.timers
  {
    hide RecordOk, AlarmOk, LiveOk, BatchOk;
  }

  lemma {:induction false} AlarmNeverNeedless(s: State, ls: seq<Label>, t: State)
    requires Init(s) && IsRun(s, ls, t) && forall i :: 0 <= i < |ls| ==> !ls[i].Cancel?
    ensures AlarmExact(t)
    decreases |ls|
  {
    if ls != [] {
      var m := |ls| - 1;
      var u :| IsRun(s, ls[..m], u) && Enabled(u, ls[m]) && t == Apply(u, ls[m]);
      hide Inv, AlarmExact, Apply, Enabled;
      AlarmNeverNeedless(s, ls[..m], u);
      RunKeepsInv(s, ls[..m], u);
      AlarmStep(u, ls[m]);
    }
  }

  // ----- a whole handleRead -----

  /** A step that `handleRead` takes by itself. */
  predicate OfQueue(l: Label) {
    l.Begin? || l.RunCallback? || l.EndCallback? || l.End?
  }

  ghost predicate QueueRun(s: State, ls: seq<Label>, t: State) {
    IsRun(s, ls, t) && Inv(t) && forall i :: 0 <= i < |ls| ==> OfQueue(ls[i])
  }

  lemma {:induction false} QueueStep(s: State, ls: seq<Label>, t: State, l: Label)
    requires QueueRun(s, ls, t) && Enabled(t, l) && OfQueue(l)
    ensures QueueRun(s, ls + [l], Apply(t, l))
  {
    StepKeepsInv(t, l);
    hide Inv, Apply, Enabled;
    RunSnoc(s, ls, t, l);
    hide IsRun;
  }

  lemma {:induction false} RunSnoc(s: State, ls: seq<Label>, t: State, l: Label)
    requires IsRun(s, ls, t) && Enabled(t, l)
    ensures IsRun(s, ls + [l], Apply(t, l))
  {
    hide Apply, Enabled;
    assert (ls + [l])[..|ls|] == ls;
  }

  ghost predicate IsDue(s: State, timer: nat) {
    timer in s.live && Entry(s.live[timer].when, timer) in s.timers && s.live[timer].when <= s.clock
  }

  function FiredAt(r: Record, now: int, fires: bool): Record {
    if fires then r.(fired := r.fired + [now]) else r
  }

  /** The timer stands in the batch before entry i. */
  ghost predicate Earlier(batch: seq<Entry>, i: nat, timer: nat) {
    exists q :: 0 <= q < i && q < |batch| && batch[q].timer == timer
  }

  ghost predicate Distinct(batch: seq<Entry>) {
    forall q, r :: 0 <= q < r < |batch| ==> batch[q].timer != batch[r].timer
  }

  /** The entries of the batch before entry i have fired once each, and no others. */
  ghost predicate FiredSoFar(t: State, v: State) {
    && v.clock == t.clock && v.phase.Handling? && !v.phase.inCallback && Distinct(v.phase.batch)
    && v.records.Keys == t.records.Keys
    && forall timer :: timer in t.records ==>
         v.records[timer] == FiredAt(t.records[timer], t.clock, Earlier(v.phase.batch, v.phase.i, timer))
  }

  /** One entry of the batch. */
  lemma {:induction false} FireOne(t: State, v: State) returns (mid: State, u: State)
    requires Inv(v) && FiredSoFar(t, v) && v.phase.i < |v.phase.batch|
    ensures Enabled(v, RunCallback) && mid == Apply(v, RunCallback)
    ensures Enabled(mid, EndCallback) && u == Apply(mid, EndCallback)
    ensures FiredSoFar(t, u) && u.phase.batch == v.phase.batch && u.phase.i == v.phase.i + 1
  {
    hide KeysOk, AlarmOk, LiveOk, Insert, RecordOk;
    mid := Apply(v, RunCallback);
    u := Apply(mid, EndCallback);
    var batch, i := v.phase.batch, v.phase.i;
    var now := batch[i].timer;
    forall timer ensures Earlier(batch, i + 1, timer) <==> Earlier(batch, i, timer) || timer == now {
      if timer == now {
        assert batch[i].timer == now;
      }
    }
    assert !Earlier(batch, i, now);
    assert u.records == v.records[now := FiredAt(v.records[now], v.clock, true)];
  }

  lemma {:induction false} FireAll(t: State, ls: seq<Label>, v: State) returns (more: seq<Label>, u: State)
    requires QueueRun(t, ls, v) && FiredSoFar(t, v)
    ensures QueueRun(t, more, u) && u.phase.Idle? && u.clock == t.clock && u.records.Keys == t.records.Keys
    ensures forall timer :: timer in t.records ==>
              u.records[timer] ==
              FiredAt(t.records[timer], t.clock, Earlier(v.phase.batch, |v.phase.batch|, timer))
    decreases |v.phase.batch| - v.phase.i
  {
    assert v.phase.i <= |v.phase.batch|;
    hide KeysOk, BatchOk, AlarmOk, LiveOk, RecordsOk, Earlier, Distinct, FiredAt, IsRun;
    if v.phase.i < |v.phase.batch| {
      var mid, next := FireOne(t, v);
      QueueStep(t, ls, v, RunCallback);
      QueueStep(t, ls + [RunCallback], mid, EndCallback);
      hide QueueRun, FiredSoFar, Apply, Enabled;
      more, u := FireAll(t, ls + [RunCallback] + [EndCallback], next);
    } else {
      QueueStep(t, ls, v, End);
      more, u := ls + [End], Apply(v, End);
    }
  }

  /** From every state outside `handleRead`, `handleRead` by itself comes back to such a
      state, at the same time, with exactly one more firing for each timer that was due,
      however long it had been due, and none for any other. */
  lemma {:induction false} HandleReadFires(s: State, ls: seq<Label>, t: State) returns (more: seq<Label>, u: State)
    requires Init(s) && IsRun(s, ls, t) && t.phase.Idle?
    ensures QueueRun(t, more, u) && u.phase.Idle? && u.clock == t.clock && u.records.Keys == t.records.Keys
    ensures forall timer :: timer in t.records ==>
              u.records[timer] == FiredAt(t.records[timer], t.clock, IsDue(t, timer))
  {
    RunKeepsInv(s, ls, t);
    assert QueueRun(t, [], t);
    QueueStep(t, [], t, Begin);
    var v := Apply(t, Begin);
    StepKeepsInv(t, Begin);
    DueAreBatch(t);
    assert forall timer :: !Earlier(v.phase.batch, 0, timer);
    hide IsRun, Init, KeysOk, AlarmOk, LiveOk, RecordsOk, ExpiredCount, QueueRun, IsDue;
    assert [] + [Begin] == [Begin];
    more, u := FireAll(t, [Begin], v);
  }

  lemma {:induction false} DueAreBatch(t: State)
    requires Inv(t) && Enabled(t, Begin)
    ensures var batch := Apply(t, Begin).phase.batch;
            forall timer :: Earlier(batch, |batch|, timer) <==> IsDue(t, timer)
  {
    hide BatchOk, AlarmOk, LiveOk, RecordsOk, ExpiredCount;
    ExpiredExactly(t.timers, t.clock);
    var batch := Apply(t, Begin).phase.batch;
    forall timer ensures Earlier(batch, |batch|, timer) <==> IsDue(t, timer) {
      if q :| 0 <= q < |batch| && batch[q].timer == timer {
        assert batch[q] in batch;
        assert batch[q] in t.timers;
      }
      if IsDue(t, timer) {
        assert Entry(t.live[timer].when, timer) in batch;
      }
    }
  }

  /** The assertions of the source hold: an added entry is new, a timer taken by
      `getExpired` has expired, and only repeating timers are restarted. */
  lemma {:induction false} AssertionsHold(s: State, ls: seq<Label>, t: State, l: Label)
    requires Init(s) && IsRun(s, ls, t) && Enabled(t, l)
    ensures l.Add? ==> Entry(l.when, l.timer) !in t.timers
    ensures l.RunCallback? ==>
              var obj := t.live[t.phase.batch[t.phase.i].timer];
              obj.ExpiredAt(t.phase.now) && !obj.canceled
    ensures l.EndCallback? ==>
              var timer := t.phase.batch[t.phase.i].timer;
              !t.live[timer].canceled && timer in t.records &&
              (t.live[timer].Repeat() <==> t.records[timer].interval > 0)
  {
    hide IsRun, Init, AlarmOk;
    RunKeepsInv(s, ls, t);
    if l.EndCallback? {
      assert RecordOk(t, t.phase.batch[t.phase.i].timer);
    }
  }

  /** Inside `handleRead` the next entry can always be run, finished or passed, and a
      timer of the batch that has not run is waiting with no firing for this expiry. */
  lemma {:induction false} BatchGoesOn(s: State, ls: seq<Label>, t: State)
    requires Init(s) && IsRun(s, ls, t) && t.phase.Handling?
    ensures t.phase.inCallback ==> Enabled(t, EndCallback)
    ensures !t.phase.inCallback && t.phase.i < |t.phase.batch| ==> Enabled(t, RunCallback)
    ensures !t.phase.inCallback && t.phase.i >= |t.phase.batch| ==> Enabled(t, End)
  {
    hide IsRun, Init, AlarmOk, KeysOk;
    RunKeepsInv(s, ls, t);
  }

  /** The entry whose turn it is has expired and is not cancelled. */
  lemma {:induction false} DueInBatch(s: State)
    requires Inv(s) && Enabled(s, RunCallback)
    ensures var obj := s.live[s.phase.batch[s.phase.i].timer];
            obj.ExpiredAt(s.phase.now) && !obj.canceled
  {
    hide KeysOk, RecordsOk, AlarmOk, LiveOk;
  }

  lemma {:induction false} AddIs(s: State, timer: nat, when: int, interval: int)
    requires Inv(s) && Enabled(s, Add(timer, when, interval))
    ensures var timers := Insert(s.timers, Entry(when, timer));
            && (forall e :: e in timers <==> e in s.timers || e == Entry(when, timer))
            && Apply(s, Add(timer, when, interval)) ==
                 s.(timers := timers,
                    live := s.live[timer := TimerState(when, interval, false)],
                    records := s.records[timer := Record(when, interval, [])],
                    alarm := if timers != [] && timers[0] == Entry(when, timer)
                             then Armed(s.clock, Later(when, s.clock + MILLISECOND)) else s.alarm)
  {
    AddIsNew(s, Add(timer, when, interval));
    hide Insert;
    InsertIsSet(s.timers, Entry(when, timer));
  }

  lemma {:induction false} CancelIs(s: State, timer: nat)
    requires Inv(s) && Enabled(s, Cancel(timer))
    ensures timer in s.live
    ensures var gone := Entry(s.live[timer].when, timer);
            var timers := Erase(s.timers, gone);
            && (forall e :: e in timers <==> e in s.timers && e != gone)
            && Apply(s, Cancel(timer)) == s.(timers := timers, live := s.live - {timer})
  {
    hide Erase;
    var gone := Entry(s.live[timer].when, timer);
    if gone in s.timers {
      EraseIsSet(s.timers, gone);
    } else {
      EraseNothing(s.timers, gone);
    }
  }

  /** No timer of the batch is cancelled, so only its interval decides what becomes of it. */
  lemma {:induction false} EndCallbackIs(s: State, e: Entry)
    requires Inv(s) && Enabled(s, EndCallback) && s.phase.batch[s.phase.i] == e
    ensures e.timer in s.live && !s.live[e.timer].canceled
    ensures var obj := s.live[e.timer];
            var next := s.(phase := s.phase.(i := s.phase.i + 1, inCallback := false));
            Apply(s, EndCallback) ==
              if obj.Repeat() then
                next.(live := s.live[e.timer := obj.Restarted()],
                      timers := Insert(s.timers, Entry(obj.Restarted().when, e.timer)))
              else next.(live := s.live - {e.timer})
  {
    hide KeysOk, RecordsOk, AlarmOk, LiveOk, Insert;
  }

  // ----- the class -----

  class TimerQueue {
    var timers: seq<Entry>
    var alarm: Alarm
    ghost var clock: int
    ghost var live: map<nat, TimerState>
    ghost var phase: Phase
    ghost var records: map<nat, Record>

    ghost function View(): State
      reads this
    {
      State(clock, timers, live, alarm, phase, records)
    }

    constructor (ghost clock: int)
      ensures Init(View()) && Inv(View()) && this.clock == clock
    {
      timers, alarm := [], Disarmed;
      this.clock, live, phase, records := clock, map[], Idle, map[];
    }

    method TimerfdSet(now: int, when: int)
      modifies this`alarm
      ensures alarm == Armed(now, Later(when, now + MILLISECOND)) == AlarmFor(now, when)
    {
      var ns := when - now;
      if ns < MILLISECOND {
        ns := MILLISECOND;
      }
      alarm := Armed(now, now + ns);
    }

    /** The part of `addTimer` that the loop thread runs. `now` is the clock it reads. */
    method AddTimer(timer: nat, when: int, interval: int, now: int)
      requires Inv(View()) && Enabled(View(), Add(timer, when, interval)) && now == clock
      modifies this
      ensures View() == Apply(old(View()), Add(timer, when, interval)) && Inv(View())
      ensures forall e :: e in timers <==> e in old(timers) || e == Entry(when, timer)
      ensures alarm == if timers != [] && timers[0] == Entry(when, timer)
                       then Armed(now, Later(when, now + MILLISECOND)) else old(alarm)
    {
      hide Inv, Insert;
      AddIs(View(), timer, when, interval);
      StepKeepsInv(View(), Add(timer, when, interval));
      hide Apply, Enabled;
      timers := Insert(timers, Entry(when, timer));
      live := live[timer := TimerState(when, interval, false)];
      records := records[timer := Record(when, interval, [])];
      if timers != [] && timers[0] == Entry(when, timer) {
        TimerfdSet(now, when);
      }
    }

    /** The part of `cancelTimer` that the loop thread runs. `when` is the timer's own time. */
    method CancelTimer(timer: nat, when: int)
      requires Inv(View()) && Enabled(View(), Cancel(timer)) && when == live[timer].when
      modifies this
      ensures View() == Apply(old(View()), Cancel(timer)) && Inv(View())
      ensures forall e :: e in timers <==> e in old(timers) && e != Entry(when, timer)
      ensures alarm == old(alarm) && live == old(live) - {timer}
    {
      hide Inv, Erase;
      CancelIs(View(), timer);
      StepKeepsInv(View(), Cancel(timer));
      hide Apply, Enabled;
      timers := Erase(timers, Entry(when, timer));
      live := live - {timer};
    }

    /** `handleRead` up to and with `getExpired`. */
    method BeginHandle(now: int) returns (entries: seq<Entry>)
      requires Inv(View()) && Enabled(View(), Begin) && now == clock
      modifies this
      ensures View() == Apply(old(View()), Begin) && Inv(View())
      ensures forall e :: e in entries <==> e in old(timers) && e.when <= now
      ensures forall e :: e in timers <==> e in old(timers) && e.when > now
      ensures alarm == if old(alarm).Armed? && now >= old(alarm).deadline then Disarmed else old(alarm)
    {
      ExpiredExactly(timers, now);
      hide Inv;
      StepKeepsInv(View(), Begin);
      var end := ExpiredCount(timers, now);
      entries := timers[..end];
      timers := timers[end..];
      alarm := AfterRead(alarm, now);
      phase := Handling(now, entries, 0, false);
    }

    /** The assertion in front of a callback, and the test behind it. */
    method AssertExpired(e: Entry, timer: Timer, now: int)
      requires Inv(View()) && Enabled(View(), RunCallback) && phase.batch[phase.i] == e && now == phase.now
      requires timer.Valid() && timer.View() == live[e.timer]
      ensures timer.View().ExpiredAt(now) && !timer.canceled
    {
      DueInBatch(View());
      hide Inv;
      var expired := timer.Expired(now);
      assert expired;
    }

    /** A callback of the batch is about to run: the assertion in front of it holds. */
    method BeforeCallback(e: Entry, timer: Timer, now: int)
      requires Inv(View()) && Enabled(View(), RunCallback) && phase.batch[phase.i] == e && now == phase.now
      requires timer.Valid() && timer.View() == live[e.timer]
      modifies this
      ensures View() == Apply(old(View()), RunCallback) && Inv(View())
    {
      hide Inv, Insert, Erase, ExpiredCount, InBatch;
      AssertExpired(e, timer, now);
      StepKeepsInv(View(), RunCallback);
      phase := phase.(inCallback := true);
      records := records[e.timer := records[e.timer].(fired := records[e.timer].fired + [clock])];
    }

    /** A repeating timer is restarted and inserted again. */
    method PutBack(e: Entry, timer: Timer)
      requires timer.Valid() && timer.repeat
      modifies this`timers, this`live, timer
      ensures timer.Valid() && timer.View() == old(timer.View()).Restarted()
      ensures timers == Insert(old(timers), Entry(timer.when, e.timer)) && live == old(live)[e.timer := timer.View()]
    {
      timer.Restart();
      timers := Insert(timers, Entry(timer.when, e.timer));
      live := live[e.timer := timer.View()];
    }

    /** After a callback: restart and insert again, or delete. */
    method AfterCallback(e: Entry, timer: Timer)
      requires Inv(View()) && Enabled(View(), EndCallback) && phase.batch[phase.i] == e
      requires timer.Valid() && timer.View() == live[e.timer]
      modifies this, timer
      ensures View() == Apply(old(View()), EndCallback) && Inv(View())
      ensures timer.Valid() && (e.timer in live ==> timer.View() == live[e.timer])
      ensures timer.View() == if old(timer.View()).Repeat() then old(timer.View()).Restarted() else old(timer.View())
      ensures timers == if timer.View().Repeat() then Insert(old(timers), Entry(timer.when, e.timer)) else old(timers)
      ensures alarm == old(alarm) && (e.timer in live <==> timer.View().Repeat())
    {
      hide Inv, Insert;
      EndCallbackIs(View(), e);
      StepKeepsInv(View(), EndCallback);
      hide Apply, Enabled;
      phase := phase.(i := phase.i + 1, inCallback := false);
      if !timer.canceled && timer.repeat {
        PutBack(e, timer);
      } else {
        live := live - {e.timer};
      }
    }

    /** The end of `handleRead`. */
    method EndHandle(now: int)
      requires Inv(View()) && Enabled(View(), End) && now == clock
      modifies this
      ensures View() == Apply(old(View()), End) && Inv(View()) && timers == old(timers)
      ensures alarm == if timers == [] then old(alarm) else Armed(now, Later(timers[0].when, now + MILLISECOND))
    {
      hide Inv;
      StepKeepsInv(View(), End);
      if timers != [] {
        TimerfdSet(now, timers[0].when);
      }
      phase := Idle;
    }
  }
}
