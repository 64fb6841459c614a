/** The batch aggregator: copies of the callback share one block of data, and the
    last copy to go hands the collected responses to `done`. */
module BatchResponse {
  import opened Sequences
  import opened Json
  import opened RpcBatch

  /** An element of the response array: the answer to an entry, or the wrapped exception
      that the entry led to. */
  datatype Response = Completed(entry: nat, result: Value) | Failed(entry: nat, code: ErrorCode, id: Value)

  /** The dispatcher is between entries, inside `handleSingleRequest` for an entry that
      was dispatched, past its loop, or gone. */
  datatype Dispatcher = Looping | InCall(entry: nat) | Leaving | Left

  /** `refs` is the reference count of the shared data; `copies[i]` says how many copies
      of the callback of entry i exist; `done` lists the calls of `done`. */
  datatype State = State(
    services: Services, entries: seq<Value>, next: nat, dispatcher: Dispatcher,
    refs: nat, copies: seq<nat>, answered: set<nat>, responses: seq<Response>, done: seq<seq<Response>>)

  datatype Label =
    | Handle                           // the dispatcher takes the next entry
    | ReturnFromCall                   // and destroys its own copy of the callback
    | EndLoop
    | Leave                            // destroys the aggregator it holds
    | CopyCallback(entry: nat)         // by the service, on any thread
    | DropCallback(entry: nat)
    | Answer(entry: nat, result: Value)

  /** Copies that the dispatcher does not hold itself. */
  function Held(s: State, i: nat): int {
    if i < |s.copies| then (s.copies[i] as int) - (if s.dispatcher == InCall(i) then 1 else 0) else 0
  }

  /** The assumption on services: a copy of the callback is used only while one exists,
      and each request is answered at most once. */
  predicate Enabled(s: State, l: Label) {
    match l
    case Handle => s.dispatcher == Looping && s.next < |s.entries| == |s.copies|
    case ReturnFromCall =>
      s.dispatcher.InCall? && s.dispatcher.entry < |s.copies| && s.copies[s.dispatcher.entry] > 0
    case EndLoop => s.dispatcher == Looping && s.next == |s.entries|
    case Leave => s.dispatcher == Leaving
    case CopyCallback(i) => i < |s.copies| && s.copies[i] > 0
    case DropCallback(i) => i < |s.copies| && Held(s, i) > 0
    case Answer(i, _) => i < |s.copies| && s.copies[i] > 0 && i !in s.answered
  }

  /** One reference less; the last one calls `done`. */
  function Release(s: State): State {
    if s.refs == 0 then s
    else if s.refs == 1 then s.(refs := 0, done := s.done + [s.responses])
    else s.(refs := s.refs - 1)
  }

  function Apply(s: State, l: Label): State
    requires Enabled(s, l)
  {
    match l
    case Handle =>
      (match Classify(s.services, s.entries[s.next])
       case Dispatched =>
         s.(next := s.next + 1, dispatcher := InCall(s.next), refs := s.refs + 1, copies := s.copies[s.next := 1])
       case Notified => s.(next := s.next + 1)
       case RequestError(code, id) => 
         s.(dispatcher := Leaving, responses := s.responses + [Failed(s.next, code, id)])
       case NotifyError(_) => s.(dispatcher := Leaving))
    case ReturnFromCall =>
      var i := s.dispatcher.entry;
      Release(s.(dispatcher := Looping, copies := s.copies[i := s.copies[i] - 1]))
    case EndLoop => s.(dispatcher := Leaving)
    case Leave => Release(s.(dispatcher := Left))
    case CopyCallback(i) => s.(refs := s.refs + 1, copies := s.copies[i := s.copies[i] + 1])
    case DropCallback(i) => Release(s.(copies := s.copies[i := s.copies[i] - 1]))
    case Answer(i, result) => s.(responses := s.responses + [Completed(i, result)], answered := s.answered + {i})
  }

  /** A non-empty batch, its aggregator just made. */
  ghost predicate Init(s: State) {
    && s.entries != [] && s.next == 0 && s.dispatcher == Looping && s.refs == 1
    && |s.copies| == |s.entries| && (forall i :: 0 <= i < |s.copies| ==> s.copies[i] == 0)
    && s.answered == {} && s.responses == [] && s.done == []
  }

  ghost predicate IsRun(s: State, ls: seq<Label>, t: State)
    decreases |ls|
  {
    if ls == [] then t == s
    else
      var m := |ls| - 1;
      exists u :: IsRun(s, ls[..m], u) && Enabled(u, ls[m]) && t == Apply(u, ls[m])
  }

  // ----- invariants -----

  function Sum(ns: seq<nat>): nat {
    if ns == [] then 0 else Sum(ns[..|ns| - 1]) + ns[|ns| - 1]
  }

  lemma {:induction false} SumUpdate(ns: seq<nat>, i: nat, n: nat)
    requires i < |ns|
    ensures Sum(ns[i := n]) == Sum(ns) - ns[i] + n
    decreases |ns|
  {
    var m := |ns| - 1;
    if i < m {
      SumUpdate(ns[..m], i, n);
      assert ns[i := n][..m] == ns[..m][i := n];
    } else {
      assert ns[i := n][..m] == ns[..m];
    }
  }

  lemma {:induction false} SumZero(ns: seq<nat>)
    ensures Sum(ns) == 0 <==> forall i :: 0 <= i < |ns| ==> ns[i] == 0
    decreases |ns|
  {
    if ns != [] {
      var m := |ns| - 1;
      SumZero(ns[..m]);
      assert (forall i :: 0 <= i < m ==> ns[..m][i] == 0) <==> forall i :: 0 <= i < m ==> ns[i] == 0;
    }
  }

  /** The reference count is the number of holders. */
  ghost predicate Counted(s: State) {
    && |s.copies| == |s.entries|
    && s.refs == Sum(s.copies) + (if s.dispatcher == Left then 0 else 1)
    && (s.dispatcher.InCall? ==> s.dispatcher.entry < |s.copies| && s.copies[s.dispatcher.entry] > 0)
  }

  /** `done` has been called once if nobody holds a reference, with all the responses,
      and not at all otherwise. */
  ghost predicate DoneOnce(s: State) {
    s.done == if s.refs == 0 then [s.responses] else []
  }

  ghost predicate IsDispatched(s: State, i: nat) {
    i < |s.entries| && Classify(s.services, s.entries[i]) == Dispatched
  }

  ghost predicate Passed(o: Outcome) {
    o == Dispatched || o == Notified
  }

  /** The entries before `next` passed; only dispatched ones have copies or answers. */
  ghost predicate Prefix(s: State) {
    && s.next <= |s.entries| == |s.copies|
    && (forall i :: 0 <= i < s.next ==> Passed(Classify(s.services, s.entries[i])))
    && (forall i :: 0 <= i < |s.copies| && s.copies[i] > 0 ==> i < s.next && IsDispatched(s, i))
    && (forall i :: i in s.answered ==> i < s.next && IsDispatched(s, i))
    && (s.dispatcher.Leaving? || s.dispatcher.Left? ==>
          s.next < |s.entries| ==> Rejected(Classify(s.services, s.entries[s.next])))
  }

  ghost predicate StoppedByRequest(s: State) {
    (s.dispatcher.Leaving? || s.dispatcher.Left?) && s.next < |s.entries|
    && Classify(s.services, s.entries[s.next]).RequestError?
  }

  /** The entries that the responses answer. */
  function Entries(rs: seq<Response>): (r: seq<nat>)
    ensures |r| == |rs| && forall i :: 0 <= i < |rs| ==> r[i] == rs[i].entry
  {
    seq(|rs|, i requires 0 <= i < |rs| => rs[i].entry)
  }

  ghost predicate RightKind(s: State, r: Response) {
    match r
    case Completed(i, _) => i in s.answered
    case Failed(i, code, id) =>
      StoppedByRequest(s) && i == s.next && Classify(s.services, s.entries[i]) == RequestError(code, id)
  }

  /** One response for each answered request, and one more exactly if a RequestException
      ended the loop. */
  ghost predicate ResponsesOk(s: State) {
    && NoDup(Entries(s.responses))
    && SetOf(Entries(s.responses)) == s.answered + (if StoppedByRequest(s) then {s.next} else {})
    && forall i :: 0 <= i < |s.responses| ==> RightKind(s, s.responses[i])
  }

  ghost predicate Inv(s: State) {
    Counted(s) && DoneOnce(s) && Prefix(s) && ResponsesOk(s)
  }

  lemma {:induction false} CountedStep(s: State, l: Label)
    requires Enabled(s, l) && Counted(s) && Prefix(s)
    ensures Counted(Apply(s, l))
  {
    hide Classify, Passed, IsDispatched, Sum;
    match l
    case Handle =>
      assert s.copies[s.next] == 0;
      hide Prefix;
      SumUpdate(s.copies, s.next, 1);
    case ReturnFromCall => SumUpdate(s.copies, s.dispatcher.entry, s.copies[s.dispatcher.entry] - 1);
    case CopyCallback(i) => SumUpdate(s.copies, i, s.copies[i] + 1);
    case DropCallback(i) => SumUpdate(s.copies, i, s.copies[i] - 1);
    case _ =>
  }

  /** What a step other than taking an entry does to the fields that `Prefix` reads. */
  lemma {:induction false} OtherSteps(s: State, l: Label)
    requires Enabled(s, l) && !l.Handle?
    ensures var t := Apply(s, l);
            && t.services == s.services && t.entries == s.entries && t.next == s.next && |t.copies| == |s.copies|
            && (forall i :: 0 <= i < |s.copies| && t.copies[i] > 0 ==> s.copies[i] > 0)
            && (forall i :: i in t.answered ==> i in s.answered || (i < |s.copies| && s.copies[i] > 0))
            && (t.dispatcher.Leaving? || t.dispatcher.Left? ==>
                  s.dispatcher.Leaving? || s.dispatcher.Left? || s.next == |s.entries|)
  {
    hide Classify;
  }

  lemma {:induction false} PrefixStep(s: State, l: Label)
    requires Enabled(s, l) && Prefix(s)
    ensures Prefix(Apply(s, l))
  {
    if l.Handle? {
      HandlePrefix(s);
    } else {
      OtherSteps(s, l);
      hide Classify, Passed, Rejected, Apply, Enabled;
    }
  }

  lemma {:induction false} HandlePrefix(s: State)
    requires Enabled(s, Handle) && Prefix(s)
    ensures Prefix(Apply(s, Handle))
  {
    hide Classify;
  }

  /** Whoever adds a response holds a reference, so `done` has not been called. */
  lemma {:induction false} AdderHolds(s: State, l: Label)
    requires Enabled(s, l) && Counted(s)
    ensures s.refs > 0
  {
    hide Classify;
    SumZero(s.copies);
  }

  lemma {:induction false} DoneOnceStep(s: State, l: Label)
    requires Enabled(s, l) && Counted(s) && DoneOnce(s)
    ensures DoneOnce(Apply(s, l))
  {
    AdderHolds(s, l);
    hide Classify, Sum;
  }

  lemma {:induction false} EntriesSnoc(rs: seq<Response>, r: Response)
    requires NoDup(Entries(rs)) && r.entry !in SetOf(Entries(rs))
    ensures NoDup(Entries(rs + [r])) && SetOf(Entries(rs + [r])) == SetOf(Entries(rs)) + {r.entry}
  {
    assert Entries(rs + [r]) == Entries(rs) + [r.entry];
    hide Entries;
    assert forall i :: 0 <= i < |rs| ==> Entries(rs)[i] in SetOf(Entries(rs));
  }

  lemma {:induction false} AnswerKeeps(s: State, i: nat, result: Value)
    requires Enabled(s, Answer(i, result)) && Prefix(s) && ResponsesOk(s)
    ensures ResponsesOk(Apply(s, Answer(i, result)))
  {
    assert i < s.next;
    hide Classify, Prefix;
    var t := Apply(s, Answer(i, result));
    assert StoppedByRequest(t) <==> StoppedByRequest(s);
    EntriesSnoc(s.responses, Completed(i, result));
    hide StoppedByRequest, Entries;
    forall k | 0 <= k < |t.responses| ensures RightKind(t, t.responses[k]) {
      assert k < |s.responses| ==> RightKind(s, s.responses[k]);
    }
  }

  lemma {:induction false} HandleKeeps(s: State)
    requires Enabled(s, Handle) && Prefix(s) && ResponsesOk(s)
    ensures ResponsesOk(Apply(s, Handle))
  {
    assert !StoppedByRequest(s);
    var o := Classify(s.services, s.entries[s.next]);
    var t := Apply(s, Handle);
    assert s.next !in s.answered;
    hide Classify, Prefix, Entries;
    if o.RequestError? {
      EntriesSnoc(s.responses, Failed(s.next, o.code, o.id));
    }
    forall k | 0 <= k < |t.responses| ensures RightKind(t, t.responses[k]) {
      assert k < |s.responses| ==> RightKind(s, s.responses[k]);
    }
  }

  lemma {:induction false} ResponsesStep(s: State, l: Label)
    requires Enabled(s, l) && Prefix(s) && ResponsesOk(s)
    ensures ResponsesOk(Apply(s, l))
  {
    match l
    case Answer(i, result) => AnswerKeeps(s, i, result);
    case Handle => HandleKeeps(s);
    case _ => SameResponses(s, l);
  }

  lemma {:induction false} SameResponses(s: State, l: Label)
    requires Enabled(s, l) && ResponsesOk(s) && !l.Answer? && !l.Handle?
    ensures ResponsesOk(Apply(s, l))
  {
    hide Classify, Entries;
    var t := Apply(s, l);
    assert StoppedByRequest(t) <==> StoppedByRequest(s);
    assert t.responses == s.responses && t.answered == s.answered && t.next == s.next;
    forall k | 0 <= k < |t.responses| ensures RightKind(t, t.responses[k]) {
      assert RightKind(s, s.responses[k]);
    }
  }

  lemma {:induction false} StepKeepsInv(s: State, l: Label)
    requires Enabled(s, l) && Inv(s)
    ensures Inv(Apply(s, l))
  {
    CountedStep(s, l);
    DoneOnceStep(s, l);
    PrefixStep(s, l);
    ResponsesStep(s, l);
    hide Counted, DoneOnce, Prefix, ResponsesOk;
  }

  lemma {:induction false} InitInv(s: State)
    requires Init(s)
    ensures Inv(s)
  {
    SumZero(s.copies);
  }

  lemma {:induction false} RunKeepsInv(s: State, ls: seq<Label>, t: State)
    requires Init(s) && IsRun(s, ls, t)
    ensures Inv(t) && t.entries == s.entries && t.services == s.services
    decreases |ls|
  {
    hide Enabled, Apply;
    if ls == [] {
      InitInv(s);
    } else {
      var m := |ls| - 1;
      var u :| IsRun(s, ls[..m], u) && Enabled(u, ls[m]) && t == Apply(u, ls[m]);
      hide Inv;
      RunKeepsInv(s, ls[..m], u);
      StepKeepsInv(u, ls[m]);
      SameBatch(u, ls[m]);
    }
  }

  lemma {:induction false} SameBatch(s: State, l: Label)
    requires Enabled(s, l)
    ensures Apply(s, l).entries == s.entries && Apply(s, l).services == s.services
  {
    hide Classify;
  }

  // ----- what every run keeps -----

  /** In every run, `done` is called at most once, and it has been called exactly if the
      dispatcher has left and no copy of a callback is left. */
  lemma {:induction false} DoneExactlyOnce(s: State, ls: seq<Label>, t: State)
    requires Init(s) && IsRun(s, ls, t)
    ensures |t.done| <= 1
    ensures |t.done| == 1 <==> t.dispatcher == Left && forall i :: 0 <= i < |t.copies| ==> t.copies[i] == 0
    ensures |t.done| == 1 ==> t.done[0] == t.responses
  {
    hide IsRun, Init, Prefix, ResponsesOk;
    RunKeepsInv(s, ls, t);
    SumZero(t.copies);
  }

  /** What `done` is called with: one answer for each answered request, and the wrapped
      exception exactly if a RequestException ended the loop. */
  lemma {:induction false} DoneWithEveryAnswer(s: State, ls: seq<Label>, t: State)
    requires Init(s) && IsRun(s, ls, t) && t.done != []
    ensures var rs := t.done[0];
            && NoDup(Entries(rs))
            && SetOf(Entries(rs)) == t.answered + (if StoppedByRequest(t) then {t.next} else {})
            && (forall k :: 0 <= k < |rs| ==> RightKind(t, rs[k]))
            && |rs| == |t.answered| + if StoppedByRequest(t) then 1 else 0
  {
    hide IsRun, Init, Counted, Classify;
    RunKeepsInv(s, ls, t);
    NoDupCard(Entries(t.responses));
    assert t.next !in t.answered;
    hide StoppedByRequest, Entries, Prefix;
    assert |t.answered + {t.next}| == |t.answered| + 1;
    assert t.answered + {} == t.answered;
  }

  // ----- what a run does, told by its labels -----

  /** The answers that services gave, in order. */
  function AnswersGiven(ls: seq<Label>): seq<Response> {
    if ls == [] then []
    else
      var l := ls[|ls| - 1];
      AnswersGiven(ls[..|ls| - 1]) + if l.Answer? then [Completed(l.entry, l.result)] else []
  }

  /** The responses without the wrapped exception. */
  function Completions(rs: seq<Response>): seq<Response> {
    if rs == [] then []
    else Completions(rs[..|rs| - 1]) + if rs[|rs| - 1].Completed? then [rs[|rs| - 1]] else []
  }

  lemma {:induction false} CompletionsSnoc(rs: seq<Response>, r: Response)
    ensures Completions(rs + [r]) == Completions(rs) + if r.Completed? then [r] else []
  {
    assert (rs + [r])[..|rs|] == rs;
  }

  /** Besides the wrapped exception the responses are the answers that were given, in the
      order in which they were given. */
  lemma {:induction false} AnswersTold(s: State, ls: seq<Label>, t: State)
    requires Init(s) && IsRun(s, ls, t)
    ensures Completions(t.responses) == AnswersGiven(ls)
    decreases |ls|
  {
    if ls != [] {
      var m := |ls| - 1;
      var u :| IsRun(s, ls[..m], u) && Enabled(u, ls[m]) && t == Apply(u, ls[m]);
      hide IsRun, Init, Enabled, Apply;
      AnswersTold(s, ls[..m], u);
      AnswerStep(u, ls[m]);
    }
  }

  lemma {:induction false} AnswerStep(s: State, l: Label)
    requires Enabled(s, l)
    ensures Completions(Apply(s, l).responses) ==
            Completions(s.responses) + if l.Answer? then [Completed(l.entry, l.result)] else []
  {
    hide Completions;
    match l
    case Answer(i, result) => CompletionsSnoc(s.responses, Completed(i, result));
    case Handle =>
      var o := Classify(s.services, s.entries[s.next]);
      hide Classify;
      if o.RequestError? {
        CompletionsSnoc(s.responses, Failed(s.next, o.code, o.id));
      }
    case _ => hide Classify;
  }

  lemma {:induction false} CompletionsAre(rs: seq<Response>, r: Response)
    ensures r in Completions(rs) <==> r in rs && r.Completed?
    decreases |rs|
  {
    if rs != [] {
      var m := |rs| - 1;
      CompletionsAre(rs[..m], r);
      assert rs == rs[..m] + [rs[m]];
    }
  }

  lemma {:induction false} AnswersAreLabels(ls: seq<Label>, i: nat, result: Value)
    ensures Completed(i, result) in AnswersGiven(ls) <==> Answer(i, result) in ls
    decreases |ls|
  {
    if ls != [] {
      var m := |ls| - 1;
      AnswersAreLabels(ls[..m], i, result);
      assert ls == ls[..m] + [ls[m]];
    }
  }

  /** A value is in the responses, and in what `done` is called with, exactly if a service
      gave it as its answer to that entry. */
  lemma {:induction false} AnswerIffGiven(s: State, ls: seq<Label>, t: State, i: nat, result: Value)
    requires Init(s) && IsRun(s, ls, t)
    ensures Completed(i, result) in t.responses <==> Answer(i, result) in ls
    ensures t.done != [] ==> (Completed(i, result) in t.done[0] <==> Answer(i, result) in ls)
  {
    AnswersTold(s, ls, t);
    DoneExactlyOnce(s, ls, t);
    hide IsRun, Init, Completions, AnswersGiven;
    CompletionsAre(t.responses, Completed(i, result));
    AnswersAreLabels(ls, i, result);
  }

  /** The entries that services have answered. */
  function AnsweredBy(ls: seq<Label>): set<nat> {
    if ls == [] then {}
    else
      var l := ls[|ls| - 1];
      AnsweredBy(ls[..|ls| - 1]) + if l.Answer? then {l.entry} else {}
  }

  lemma {:induction false} AnsweredTold(s: State, ls: seq<Label>, t: State)
    requires Init(s) && IsRun(s, ls, t)
    ensures t.answered == AnsweredBy(ls)
    decreases |ls|
  {
    if ls != [] {
      var m := |ls| - 1;
      var u :| IsRun(s, ls[..m], u) && Enabled(u, ls[m]) && t == Apply(u, ls[m]);
      hide IsRun, Init, Enabled, Apply;
      AnsweredTold(s, ls[..m], u);
      AnsweredStep(u, ls[m]);
    }
  }

  lemma {:induction false} AnsweredStep(s: State, l: Label)
    requires Enabled(s, l)
    ensures Apply(s, l).answered == s.answered + if l.Answer? then {l.entry} else {}
  {
    hide Classify;
  }

  /** What the model assumes of services, and no more: whoever holds a copy of a callback
      may copy it, and may answer the request once. */
  lemma {:induction false} ServicesMay(s: State, ls: seq<Label>, t: State, i: nat, result: Value)
    requires Init(s) && IsRun(s, ls, t)
    ensures Enabled(t, CopyCallback(i)) <==> i < |t.copies| && t.copies[i] > 0
    ensures Enabled(t, Answer(i, result)) <==>
            i < |t.copies| && t.copies[i] > 0 && i !in AnsweredBy(ls)
  {
    AnsweredTold(s, ls, t);
    hide IsRun, Init, Classify, AnsweredBy;
  }

  // ----- every batch comes to its end -----

  /** A step of the dispatcher, or a callback that is dropped. */
  predicate Closing(l: Label) {
    l.Handle? || l.ReturnFromCall? || l.EndLoop? || l.Leave? || l.DropCallback?
  }

  ghost predicate ClosingRun(s: State, ls: seq<Label>, t: State) {
    IsRun(s, ls, t) && Inv(t) && forall i :: 0 <= i < |ls| ==> Closing(ls[i])
  }

  lemma {:induction false} ClosingStep(s: State, ls: seq<Label>, t: State, l: Label)
    requires ClosingRun(s, ls, t) && Enabled(t, l) && Closing(l)
    ensures ClosingRun(s, ls + [l], Apply(t, l))
  {
    StepKeepsInv(t, l);
    hide Inv, Apply, Enabled;
    RunSnoc(s, ls, t, l);
    hide IsRun;
  }

  lemma {:induction false} RunSnoc(s: State, ls: seq<Label>, t: State, l: Label)
    requires IsRun(s, ls, t) && Enabled(t, l)
    ensures IsRun(s, ls + [l], Apply(t, l))
  {
    hide Apply, Enabled;
    assert (ls + [l])[..|ls|] == ls;
  }

  function StepsLeft(d: Dispatcher): nat {
    match d
    case Left => 0
    case Leaving => 1
    case Looping => 2
    case InCall(_) => 3
  }

  /** What the dispatcher does next. */
  function NextStep(s: State): Label {
    match s.dispatcher
    case InCall(_) => ReturnFromCall
    case Looping => if s.next < |s.entries| then Handle else EndLoop
    case _ => Leave
  }

  lemma {:induction false} DispatcherSteps(t: State)
    requires Inv(t) && t.dispatcher != Left
    ensures Enabled(t, NextStep(t)) && Closing(NextStep(t))
    ensures var u := Apply(t, NextStep(t));
            |u.entries| == |t.entries| && u.next <= |u.entries| &&
            (u.next > t.next || (u.next == t.next && StepsLeft(u.dispatcher) < StepsLeft(t.dispatcher)))
  {
    hide Classify, Sum, DoneOnce, ResponsesOk;
  }

  /** The dispatcher by itself comes to leave. */
  lemma {:induction false} DispatcherLeaves(s: State, ls: seq<Label>, t: State) returns (more: seq<Label>, u: State)
    requires ClosingRun(s, ls, t) && t.next <= |t.entries|
    ensures ClosingRun(s, more, u) && u.dispatcher == Left
    decreases |t.entries| - t.next, StepsLeft(t.dispatcher)
  {
    more, u := ls, t;
    if t.dispatcher != Left {
      DispatcherSteps(t);
      hide Inv, IsRun;
      var l := NextStep(t);
      ClosingStep(s, ls, t, l);
      hide ClosingRun, Apply, Enabled, NextStep;
      more, u := DispatcherLeaves(s, ls + [l], Apply(t, l));
    }
  }

  lemma {:induction false} DropIs(t: State, i: nat)
    requires Enabled(t, DropCallback(i))
    ensures i < |t.copies| && t.copies[i] > 0
    ensures var u := Apply(t, DropCallback(i));
            u.dispatcher == t.dispatcher && u.copies == t.copies[i := t.copies[i] - 1]
  {
    hide Classify;
  }

  /** When the dispatcher has left, the copies can all be dropped. */
  lemma {:induction false} CopiesDropped(s: State, ls: seq<Label>, t: State) returns (more: seq<Label>, u: State)
    requires ClosingRun(s, ls, t) && t.dispatcher == Left
    ensures ClosingRun(s, more, u) && u.dispatcher == Left && forall i :: 0 <= i < |u.copies| ==> u.copies[i] == 0
    decreases Sum(t.copies)
  {
    more, u := ls, t;
    hide Inv, IsRun, Sum, ClosingRun;
    if i: nat :| i < |t.copies| && t.copies[i] > 0 {
      var l := DropCallback(i);
      SumUpdate(t.copies, i, t.copies[i] - 1);
      ClosingStep(s, ls, t, l);
      DropIs(t, i);
      hide Apply, Enabled;
      more, u := CopiesDropped(s, ls + [l], Apply(t, l));
    }
  }

  /** No batch is stuck: from every state of every run the dispatcher by itself, and
      services that drop their callbacks, bring it to the call of `done`. */
  lemma {:induction false} BatchEnds(s: State, ls: seq<Label>, t: State) returns (more: seq<Label>, u: State)
    requires Init(s) && IsRun(s, ls, t)
    ensures ClosingRun(t, more, u) && u.done == [u.responses]
  {
    RunKeepsInv(s, ls, t);
    assert ClosingRun(t, [], t);
    assert t.next <= |t.entries|;
    hide IsRun, Init, ClosingRun;
    more, u := DispatcherLeaves(t, [], t);
    more, u := CopiesDropped(t, more, u);
    assert Inv(u) by { ClosingKeeps(t, more, u); }
    SumZero(u.copies);
  }

  lemma {:induction false} ClosingKeeps(s: State, ls: seq<Label>, t: State)
    requires ClosingRun(s, ls, t)
    ensures Inv(t)
  {
    hide Inv;
  }

  // ----- which entries are answered -----

  /** The first rejected entry, or the number of entries. */
  function StopAt(services: Services, entries: seq<Value>): (k: nat)
    ensures k <= |entries|
  {
    if entries == [] || Rejected(Classify(services, entries[0])) then 0
    else 1 + StopAt(services, entries[1..])
  }

  ghost predicate StopsAt(services: Services, entries: seq<Value>, k: nat) {
    && k <= |entries|
    && (forall i :: 0 <= i < k ==> !Rejected(Classify(services, entries[i])))
    && (k < |entries| ==> Rejected(Classify(services, entries[k])))
  }

  lemma {:induction false} StopAtIsFirst(services: Services, entries: seq<Value>, k: nat)
    requires StopsAt(services, entries, k)
    ensures StopAt(services, entries) == k
    decreases k
  {
    hide Classify;
    if k > 0 {
      StopAtIsFirst(services, entries[1..], k - 1);
    }
  }

  /** In a finished run whose dispatched requests were all answered, the loop has stopped
      at the first rejected entry, and the array answers exactly the entries up to there
      that `Answers` names, each once. */
  lemma {:induction false} FinishedBatchSends(s: State, ls: seq<Label>, t: State)
    requires Init(s) && IsRun(s, ls, t) && t.done != []
    requires forall i :: 0 <= i < t.next && IsDispatched(t, i) ==> i in t.answered
    ensures t.services == s.services && t.entries == s.entries
    ensures t.next == StopAt(s.services, s.entries) && StopsAt(s.services, s.entries, t.next)
    ensures NoDup(Entries(t.done[0]))
    ensures forall i: nat :: i in Entries(t.done[0]) <==>
              i < |s.entries| && i <= t.next && Answers(Classify(s.services, s.entries[i]))
  {
    RunKeepsInv(s, ls, t);
    DoneExactlyOnce(s, ls, t);
    DoneWithEveryAnswer(s, ls, t);
    hide *;
    FinishedPrefix(t);
    StopAtIsFirst(s.services, s.entries, t.next);
    FinishedAnswers(t);
  }

  /** What the invariant says of a batch whose dispatcher has left. */
  lemma {:induction false} FinishedPrefix(t: State)
    requires Inv(t) && t.dispatcher == Left
    ensures StopsAt(t.services, t.entries, t.next)
    ensures StoppedByRequest(t) <==>
            t.next < |t.entries| && Classify(t.services, t.entries[t.next]).RequestError?
  {
    hide Classify, ResponsesOk, DoneOnce, Counted;
  }

  lemma {:induction false} FinishedAnswers(t: State)
    requires Inv(t) && t.dispatcher == Left && t.done != []
    requires forall i :: 0 <= i < t.next && IsDispatched(t, i) ==> i in t.answered
    ensures forall i: nat :: i in Entries(t.done[0]) <==>
              i < |t.entries| && i <= t.next && Answers(Classify(t.services, t.entries[i]))
  {
    FinishedPrefix(t);
    hide Classify, Counted, StoppedByRequest, Entries;
    forall i: nat
      ensures i in Entries(t.done[0]) <==>
              i < |t.entries| && i <= t.next && Answers(Classify(t.services, t.entries[i]))
    {
      assert i in Entries(t.responses) <==> i in SetOf(Entries(t.responses));
    }
  }

  // ----- section 6 of the JSON-RPC 2.0 specification -----

  /** Each entry that wants a response gets one, no other gets any, and the array is not
      empty, since the server sends whatever `done` is called with unless it is null. */
  ghost predicate Conforms(entries: seq<Value>, rs: seq<Response>) {
    && rs != [] && NoDup(Entries(rs))
    && forall i: nat :: i in Entries(rs) <==> i < |entries| && Wants(entries[i])
  }

  /** No entry before i is rejected. */
  ghost predicate Reached(services: Services, entries: seq<Value>, i: nat) {
    forall j :: 0 <= j < i && j < |entries| ==> Accepted(services, entries[j])
  }

  /** Some entry wants a response, and of those the loop reaches none is ignored or
      answered unasked, and none is rejected with an entry behind it that wants one. */
  ghost predicate Fits(services: Services, entries: seq<Value>) {
    && (exists i :: 0 <= i < |entries| && Wants(entries[i]))
    && forall i :: 0 <= i < |entries| && Reached(services, entries, i) ==>
         && !Ignored(services, entries[i]) && !Unasked(services, entries[i])
         && (!Accepted(services, entries[i]) ==> forall j :: i < j < |entries| ==> !Wants(entries[j]))
  }

  lemma {:induction false} ReachedIff(services: Services, entries: seq<Value>, k: nat, i: nat)
    requires StopsAt(services, entries, k) && i < |entries|
    ensures Reached(services, entries, i) <==> i <= k
    ensures Reached(services, entries, i) ==> (Accepted(services, entries[i]) <==> i < k)
  {
    hide Classify, Rejected, Accepted;
    forall j | 0 <= j < |entries|
      ensures Accepted(services, entries[j]) <==> !Rejected(Classify(services, entries[j]))
    {
      AcceptedIff(services, entries[j]);
    }
  }

  lemma {:induction false} ConformsIff(services: Services, entries: seq<Value>, k: nat, rs: seq<Response>)
    requires StopsAt(services, entries, k) && NoDup(Entries(rs))
    requires forall i: nat ::
               i in Entries(rs) <==> i < |entries| && i <= k && Answers(Classify(services, entries[i]))
    ensures Conforms(entries, rs) <==> Fits(services, entries)
  {
    hide Classify, Answers, Wants, Ignored, Unasked, Accepted, StopsAt;
    forall i: nat | i < |entries|
      ensures Reached(services, entries, i) <==> i <= k
      ensures i <= k ==> (Accepted(services, entries[i]) <==> i < k)
      ensures (Answers(Classify(services, entries[i])) <==> Wants(entries[i])) <==>
              !Ignored(services, entries[i]) && !Unasked(services, entries[i])
    {
      ReachedIff(services, entries, k, i);
      AnswersIff(services, entries[i]);
    }
    hide Reached;
    if Conforms(entries, rs) {
      assert Entries(rs)[0] in Entries(rs);
    }
    if Fits(services, entries) {
      assert k < |entries| ==> Reached(services, entries, k);
      forall i: nat ensures i in Entries(rs) <==> i < |entries| && Wants(entries[i]) {
      }
      var i :| 0 <= i < |entries| && Wants(entries[i]);
      assert i in Entries(rs);
    }
  }

  /** What the server sends for a batch is what section 6 wants exactly if the batch
      fits: in every finished run whose dispatched requests were all answered. */
  lemma {:induction false} SectionSixIff(s: State, ls: seq<Label>, t: State)
    requires Init(s) && IsRun(s, ls, t) && t.done != []
    requires forall i :: 0 <= i < t.next && IsDispatched(t, i) ==> i in t.answered
    ensures Conforms(s.entries, t.done[0]) <==> Fits(s.services, s.entries)
  {
    FinishedBatchSends(s, ls, t);
    hide *;
    ConformsIff(s.services, s.entries, t.next, t.done[0]);
  }

  function Note(version: string, name: string): Value {
    Obj(map["jsonrpc" := Str(version), "method" := Str(name)])
  }

  function Request(name: string, id: Int32): Value {
    Obj(map["jsonrpc" := Str("2.0"), "method" := Str(name), "id" := I32(id)])
  }

  const SAMPLE: Services := map["s" := Service({"p"}, {"q"})]

  lemma {:induction false} NotePasses()
    ensures Accepted(SAMPLE, Note("2.0", "s.q")) && IsNotification(Note("2.0", "s.q"))
  {
    var service, name := "s", "q";
    assert "s.q" == service + "." + name;
    assert name in SAMPLE[service].notifications;
  }

  lemma {:induction false} RequestPasses(id: Int32)
    ensures Accepted(SAMPLE, Request("s.p", id)) && Wants(Request("s.p", id))
  {
    var service, name := "s", "p";
    assert "s.p" == service + "." + name;
    assert name in SAMPLE[service].procedures;
  }

  lemma {:induction false} UnknownService()
    ensures Classify(SAMPLE, Note("2.0", "x.y")) == RequestError(MethodNotFound, Null)
    ensures Unasked(SAMPLE, Note("2.0", "x.y"))
  {
    var e := Note("2.0", "x.y");
    var service, name := "x", "y";
    assert "x.y" == service + "." + name;
    assert NoTarget(SAMPLE, e);
    NoTargetMeans(SAMPLE, e);
    DotSplits("x.y", service, name);
  }

  /** A notification to an unknown service is answered, and the call behind it is not. */
  lemma {:induction false} UnknownServiceInFront(s: State, ls: seq<Label>, t: State)
    requires Init(s) && IsRun(s, ls, t) && t.done != []
    requires s.services == SAMPLE && s.entries == [Note("2.0", "x.y"), Request("s.p", 1)]
    ensures t.done == [[Failed(0, MethodNotFound, Null)]] && !Conforms(s.entries, t.done[0])
  {
    UnknownService();
    RunKeepsInv(s, ls, t);
    DoneExactlyOnce(s, ls, t);
    hide *;
    FinishedPrefix(t);
    FirstRejected(t.services, t.entries, t.next, 0);
    FinishedBatchSends(s, ls, t);
    SectionSixIff(s, ls, t);
    UnaskedBreaks(s.services, s.entries);
    DoneWithEveryAnswer(s, ls, t);
    OneFailure(t, MethodNotFound, Null);
  }

  lemma {:induction false} FirstRejected(services: Services, entries: seq<Value>, k: nat, i: nat)
    requires StopsAt(services, entries, k) && i < |entries| && Rejected(Classify(services, entries[i]))
    requires forall j :: 0 <= j < i ==> !Rejected(Classify(services, entries[j]))
    ensures k == i
  {
    hide Classify;
  }

  lemma {:induction false} UnaskedBreaks(services: Services, entries: seq<Value>)
    requires entries != [] && Unasked(services, entries[0])
    ensures !Fits(services, entries)
  {
    hide Unasked;
    assert Reached(services, entries, 0);
  }

  lemma {:induction false} OneFailure(t: State, code: ErrorCode, id: Value)
    requires t.next == 0 && t.entries != [] && Classify(t.services, t.entries[0]) == RequestError(code, id)
    requires t.answered == {} && t.done != [] && StoppedByRequest(t)
    requires |t.done[0]| == 1 && RightKind(t, t.done[0][0])
    ensures t.done[0] == [Failed(0, code, id)]
  {
    hide Classify;
  }

  /** A batch of notifications is answered with an empty array. */
  lemma {:induction false} NotificationsOnly(s: State, ls: seq<Label>, t: State)
    requires Init(s) && IsRun(s, ls, t) && t.done != []
    requires forall i :: 0 <= i < |s.entries| ==> WellFormedNotification(s.services, s.entries[i])
    ensures t.done == [[]] && !Conforms(s.entries, t.done[0])
  {
    forall i | 0 <= i < |s.entries| ensures Classify(s.services, s.entries[i]) == Notified {
      NotifiedIffWellFormed(s.services, s.entries[i]);
    }
    DoneExactlyOnce(s, ls, t);
    RunKeepsInv(s, ls, t);
    hide IsRun, Init, Inv, Classify, Entries, WellFormedNotification;
    FinishedBatchSends(s, ls, t);
    assert forall i: nat :: i !in Entries(t.done[0]);
    if t.done[0] != [] {
      NonEmptyHas(Entries(t.done[0]));
    }
  }

  lemma {:induction false} OldVersionBreaks(id: Int32)
    ensures !Fits(SAMPLE, [Request("s.p", id), Note("1.0", "s.q")])
    ensures !Answers(Classify(SAMPLE, Note("1.0", "s.q")))
  {
    RequestPasses(id);
    var batch := [Request("s.p", id), Note("1.0", "s.q")];
    assert Ignored(SAMPLE, batch[1]);
    AnswersIff(SAMPLE, batch[1]);
    hide Accepted, Ignored, Unasked, Wants, Request, Note, Classify;
    assert Reached(SAMPLE, batch, 1);
  }

  /** Another version makes an entry without id invalid, but it is silently dropped. */
  lemma {:induction false} OldVersionIgnored(s: State, ls: seq<Label>, t: State, id: Int32)
    requires Init(s) && IsRun(s, ls, t) && t.done != []
    requires s.services == SAMPLE && s.entries == [Request("s.p", id), Note("1.0", "s.q")]
    requires forall i :: 0 <= i < t.next && IsDispatched(t, i) ==> i in t.answered
    ensures 1 !in Entries(t.done[0]) && !Conforms(s.entries, t.done[0])
  {
    OldVersionBreaks(id);
    hide *;
    FinishedBatchSends(s, ls, t);
    SectionSixIff(s, ls, t);
    assert s.entries[1] == Note("1.0", "s.q");
  }

  lemma {:induction false} CallAndNotificationFit(id: Int32)
    ensures Fits(SAMPLE, [Request("s.p", id), Note("2.0", "s.q")])
  {
    RequestPasses(id);
    NotePasses();
    var batch := [Request("s.p", id), Note("2.0", "s.q")];
    assert !Ignored(SAMPLE, batch[0]) && !Unasked(SAMPLE, batch[0]);
    NotifiedIffWellFormed(SAMPLE, batch[1]);
    AnswersIff(SAMPLE, batch[1]);
    AcceptedIff(SAMPLE, batch[1]);
    hide Accepted, Ignored, Unasked, Classify, Wants, WellFormedNotification, Request, Note, NoTarget;
    assert Wants(batch[0]);
  }

  /** With the right version the same batch is answered as section 6 wants. */
  lemma {:induction false} NewVersionConforms(s: State, ls: seq<Label>, t: State, id: Int32)
    requires Init(s) && IsRun(s, ls, t) && t.done != []
    requires s.services == SAMPLE && s.entries == [Request("s.p", id), Note("2.0", "s.q")]
    requires forall i :: 0 <= i < t.next && IsDispatched(t, i) ==> i in t.answered
    ensures Conforms(s.entries, t.done[0])
  {
    CallAndNotificationFit(id);
    hide *;
    SectionSixIff(s, ls, t);
  }

  lemma {:induction false} JunkFits()
    ensures Fits(SAMPLE, [Obj(map["foo" := Str("boo")])])
    ensures Classify(SAMPLE, Obj(map["foo" := Str("boo")])) == RequestError(InvalidRequest, Null)
  {
    var batch := [Obj(map["foo" := Str("boo")])];
    assert Wants(batch[0]);
    hide NoTarget, Accepted;
  }

  /** An object that is no request at all is answered, as section 6 wants. */
  lemma {:induction false} JunkIsAnswered(s: State, ls: seq<Label>, t: State)
    requires Init(s) && IsRun(s, ls, t) && t.done != []
    requires s.services == SAMPLE && s.entries == [Obj(map["foo" := Str("boo")])]
    ensures t.done == [[Failed(0, InvalidRequest, Null)]] && Conforms(s.entries, t.done[0])
  {
    JunkFits();
    RunKeepsInv(s, ls, t);
    DoneExactlyOnce(s, ls, t);
    hide *;
    FinishedPrefix(t);
    FirstRejected(t.services, t.entries, t.next, 0);
    FinishedBatchSends(s, ls, t);
    SectionSixIff(s, ls, t);
    DoneWithEveryAnswer(s, ls, t);
    OneFailure(t, InvalidRequest, Null);
  }

  // ----- the class -----

  /** What a service does in its call: the copies of the callback it keeps, and its answer
      if it gives one at once. */
  datatype Served = Served(kept: nat, answer: Option<Value>)

  /** The answers given at once for the first k entries, in order. */
  function AtOnce(services: Services, entries: seq<Value>, calls: seq<Served>, k: nat): seq<Response>
    requires k <= |entries| <= |calls|
  {
    if k == 0 then []
    else
      AtOnce(services, entries, calls, k - 1) +
      if Classify(services, entries[k - 1]) == Dispatched && calls[k - 1].answer.Some?
      then [Completed(k - 1, calls[k - 1].answer.value)] else []
  }

  /** All responses once the loop has stopped before entry k. */
  function Expected(services: Services, entries: seq<Value>, calls: seq<Served>, k: nat): seq<Response>
    requires k <= |entries| <= |calls|
  {
    AtOnce(services, entries, calls, k) +
    if k < |entries| then Wrapped(Classify(services, entries[k]), k) else []
  }

  /** The response of the dispatcher itself to entry i. */
  function Wrapped(o: Outcome, i: nat): seq<Response> {
    if o.RequestError? then [Failed(i, o.code, o.id)] else []
  }

  /** Each request dispatched among the first k entries has the copies its service kept,
      and has been answered if its service answered at once. */
  ghost predicate ServedSoFar(services: Services, entries: seq<Value>, copies: seq<nat>, answered: set<nat>,
                              calls: seq<Served>, k: nat)
  {
    && |copies| == |entries| <= |calls|
    && (forall i :: 0 <= i < |entries| ==>
          copies[i] == if i < k && Classify(services, entries[i]) == Dispatched then calls[i].kept else 0)
    && (forall i: nat :: i in answered <==>
          i < k && i < |entries| && Classify(services, entries[i]) == Dispatched && calls[i].answer.Some?)
  }

  /** The shared data and its dispatcher. Each method is one step; the ghost fields say
      who holds a reference. */
  class Aggregator {
    const services: Services
    const entries: seq<Value>
    var responses: seq<Response>
    var refs: nat
    var next: nat
    ghost var dispatcher: Dispatcher
    ghost var copies: seq<nat>
    ghost var answered: set<nat>
    var done: seq<seq<Response>>

    ghost function View(): State
      reads this
    {
      State(services, entries, next, dispatcher, refs, copies, answered, responses, done)
    }

    constructor (services: Services, entries: seq<Value>)
      requires entries != []
      ensures Init(View()) && Inv(View()) && this.services == services && this.entries == entries
    {
      this.services, this.entries := services, entries;
      responses, refs, next, done := [], 1, 0, [];
      dispatcher, copies, answered := Looping, seq(|entries|, _ => 0), {};
      new;
      InitInv(View());
    }

    /** The destructor of one reference. */
    method ReleaseOne()
      requires refs > 0
      modifies this`refs, this`done
      ensures refs == old(refs) - 1 && done == old(done) + if refs == 0 then [responses] else []
    {
      refs := refs - 1;
      if refs == 0 {
        done := done + [responses];
      }
    }

    method AddResponse(ghost i: nat, ghost result: Value, response: Response)
      requires Inv(View()) && Enabled(View(), Answer(i, result)) && response == Completed(i, result)
      modifies this
      ensures View() == Apply(old(View()), Answer(i, result)) && Inv(View())
      ensures responses == old(responses) + [response]
    {
      hide Inv;
      StepKeepsInv(View(), Answer(i, result));
      responses := responses + [response];
      answered := answered + {i};
    }

    method CopyCallback(ghost i: nat)
      requires Inv(View()) && Enabled(View(), Label.CopyCallback(i))
      modifies this
      ensures View() == Apply(old(View()), Label.CopyCallback(i)) && Inv(View())
    {
      hide Inv;
      StepKeepsInv(View(), Label.CopyCallback(i));
      refs := refs + 1;
      copies := copies[i := copies[i] + 1];
    }

    method DropCallback(ghost i: nat)
      requires Inv(View()) && Enabled(View(), Label.DropCallback(i))
      modifies this
      ensures View() == Apply(old(View()), Label.DropCallback(i)) && Inv(View())
    {
      hide Inv, Classify;
      StepKeepsInv(View(), Label.DropCallback(i));
      HolderCounts(View(), Label.DropCallback(i));
      copies := copies[i := copies[i] - 1];
      ReleaseOne();
    }

    /** One turn of the dispatcher's loop, as far as into a dispatched call. */
    method HandleNext() returns (o: Outcome)
      requires Inv(View()) && Enabled(View(), Handle)
      modifies this
      ensures o == Classify(services, entries[old(next)])
      ensures View() == Apply(old(View()), Handle) && Inv(View())
      ensures responses == old(responses) + Wrapped(o, old(next))
    {
      hide Inv, Classify;
      StepKeepsInv(View(), Handle);
      o := Classify(services, entries[next]);
      match o
      case Dispatched =>
        dispatcher := InCall(next);
        copies := copies[next := 1];
        refs := refs + 1;
        next := next + 1;
      case Notified =>
        next := next + 1;
      case RequestError(code, id) =>
        responses := responses + [Failed(next, code, id)];
        dispatcher := Leaving;
      case NotifyError(_) =>
        dispatcher := Leaving;
    }

    /** The call returns and the dispatcher's copy of the callback goes. */
    method Return()
      requires Inv(View()) && Enabled(View(), ReturnFromCall)
      modifies this
      ensures View() == Apply(old(View()), ReturnFromCall) && Inv(View())
    {
      hide Inv, Classify;
      StepKeepsInv(View(), ReturnFromCall);
      HolderCounts(View(), ReturnFromCall);
      copies := copies[dispatcher.entry := copies[dispatcher.entry] - 1];
      dispatcher := Looping;
      ReleaseOne();
    }

    /** What the services of the first k entries have done, by the copies and answers. */
    ghost predicate AsServed(calls: seq<Served>, k: nat)
      reads this
    {
      ServedSoFar(services, entries, copies, answered, calls, k)
    }

    /** A service makes some copies of its callback. */
    method CopyTimes(ghost i: nat, n: nat)
      requires Inv(View()) && i < |copies| && copies[i] > 0
      modifies this
      ensures Inv(View())
      ensures View() == old(View()).(refs := old(refs) + n, copies := old(copies)[i := old(copies)[i] + n])
    {
      hide Inv, Classify;
      var k := 0;
      while k < n
        invariant 0 <= k <= n && Inv(View())
        invariant View() == old(View()).(refs := old(refs) + k, copies := old(copies)[i := old(copies)[i] + k])
      {
        CopyCallback(i);
        k := k + 1;
      }
    }

    /** What a service does with the callback of entry i before its call returns. */
    method Serve(ghost i: nat, at: nat, call: Served)
      requires Inv(View()) && dispatcher == InCall(i) && i == at < |copies| && copies[i] == 1 && i !in answered
      modifies this
      ensures Inv(View()) && dispatcher == Looping && next == old(next)
      ensures copies == old(copies)[i := call.kept]
      ensures answered == old(answered) + if call.answer.Some? then {i} else {}
      ensures responses == old(responses) +
                if call.answer.Some? then [Completed(at, call.answer.value)] else []
    {
      hide Inv, Classify;
      CopyTimes(i, call.kept);
      if call.answer.Some? {
        AddResponse(i, call.answer.value, Completed(at, call.answer.value));
      }
      Return();
    }

    /** One turn of the loop. */
    method HandleEntry(call: Served, ghost calls: seq<Served>) returns (stopped: bool)
      requires Inv(View()) && dispatcher == Looping && next < |entries|
      requires AsServed(calls, next) && call == calls[next]
      requires responses == AtOnce(services, entries, calls, next)
      modifies this
      ensures Inv(View()) && dispatcher == (if stopped then Leaving else Looping) && AsServed(calls, next)
      ensures next == old(next) + if stopped then 0 else 1
      ensures stopped == Rejected(Classify(services, entries[old(next)]))
      ensures responses == AtOnce(services, entries, calls, next) +
                if stopped then Wrapped(Classify(services, entries[next]), next) else []
    {
      hide Inv, Classify, ServedSoFar, AtOnce;
      var i := next;
      ServedBefore(services, entries, copies, answered, calls, i);
      var o := HandleNext();
      stopped := Rejected(o);
      if o == Dispatched {
        Serve(i, i, call);
        assert copies == old(copies)[i := call.kept];
        ServedNext(services, entries, old(copies), old(answered), calls, i);
        AtOnceNext(services, entries, calls, i);
      } else if o == Notified {
        ServedSame(services, entries, copies, answered, calls, i);
        AtOnceNext(services, entries, calls, i);
      }
    }

    /** The loop, as far as its end or the first rejected entry. */
    method HandleEntries(calls: seq<Served>) returns (stopped: bool)
      requires Inv(View()) && next == 0 && dispatcher == Looping && |entries| <= |calls|
      requires AsServed(calls, 0) && responses == []
      modifies this
      ensures Inv(View()) && dispatcher == (if stopped then Leaving else Looping) && AsServed(calls, next)
      ensures StopsAt(services, entries, next) && (stopped <==> next < |entries|)
      ensures responses == Expected(services, entries, calls, next)
    {
      hide Inv, Classify, Rejected, ServedSoFar;
      stopped := false;
      while !stopped && next < |entries|
        invariant Inv(View()) && next <= |entries| <= |calls| && AsServed(calls, next)
        invariant dispatcher == if stopped then Leaving else Looping
        invariant forall i :: 0 <= i < next ==> !Rejected(Classify(services, entries[i]))
        invariant stopped ==> next < |entries| && Rejected(Classify(services, entries[next]))
        invariant responses == AtOnce(services, entries, calls, next) +
                    if stopped then Wrapped(Classify(services, entries[next]), next) else []
        decreases |entries| - next, !stopped
      {
        hide AsServed, AtOnce, Wrapped, Expected, StopsAt;
        stopped := HandleEntry(calls[next], calls);
      }
    }

    /** The whole of `handleBatchRequests`. `calls` says what the service of each entry
        does before it returns: how many copies it keeps, and its answer if it has one. */
    method HandleBatchRequests(calls: seq<Served>)
      requires Inv(View()) && next == 0 && dispatcher == Looping && |copies| == |entries| == |calls|
      requires forall i :: 0 <= i < |copies| ==> copies[i] == 0
      modifies this
      ensures Inv(View()) && dispatcher == Left && next == StopAt(services, entries)
      ensures AsServed(calls, next) && responses == Expected(services, entries, calls, next)
      ensures done == if forall i :: 0 <= i < |copies| ==> copies[i] == 0 then [responses] else []
    {
      hide Inv, Classify, StopsAt, ServedSoFar, Expected;
      NothingServed(View(), calls);
      var stopped := HandleEntries(calls);
      StopAtIsFirst(services, entries, next);
      if !stopped {
        LeaveLoop();
      }
      LeaveBatch();
      DoneIfNoCopies(View());
    }

    /** The loop ends behind the last entry. */
    method LeaveLoop()
      requires Inv(View()) && Enabled(View(), EndLoop)
      modifies this`dispatcher
      ensures View() == Apply(old(View()), EndLoop) && Inv(View())
    {
      hide Inv;
      StepKeepsInv(View(), EndLoop);
      dispatcher := Leaving;
    }

    /** The end of `handleBatchRequests` destroys the dispatcher's own reference. */
    method LeaveBatch()
      requires Inv(View()) && Enabled(View(), Leave)
      modifies this`dispatcher, this`refs, this`done
      ensures View() == Apply(old(View()), Leave) && Inv(View())
    {
      hide Inv, Classify;
      StepKeepsInv(View(), Leave);
      HolderCounts(View(), Leave);
      dispatcher := Left;
      ReleaseOne();
    }
  }

  lemma {:induction false} ServedBefore(
      services: Services, entries: seq<Value>, copies: seq<nat>, answered: set<nat>, calls: seq<Served>, i: nat)
    requires ServedSoFar(services, entries, copies, answered, calls, i) && i < |entries|
    ensures i < |copies| == |entries| <= |calls| && copies[i] == 0 && i !in answered
  {
    hide Classify;
  }

  lemma {:induction false} ServedNext(
      services: Services, entries: seq<Value>, copies: seq<nat>, answered: set<nat>, calls: seq<Served>, i: nat)
    requires ServedSoFar(services, entries, copies, answered, calls, i) && i < |entries| == |copies| <= |calls|
    requires Classify(services, entries[i]) == Dispatched
    ensures ServedSoFar(services, entries, copies[i := calls[i].kept],
                        answered + (if calls[i].answer.Some? then {i} else {}), calls, i + 1)
  {
    hide Classify;
  }

  lemma {:induction false} ServedSame(
      services: Services, entries: seq<Value>, copies: seq<nat>, answered: set<nat>, calls: seq<Served>, i: nat)
    requires ServedSoFar(services, entries, copies, answered, calls, i) && i < |entries| <= |calls|
    requires Classify(services, entries[i]) == Notified
    ensures ServedSoFar(services, entries, copies, answered, calls, i + 1)
  {
    hide Classify;
  }

  lemma {:induction false} AtOnceNext(services: Services, entries: seq<Value>, calls: seq<Served>, i: nat)
    requires i < |entries| <= |calls|
    ensures AtOnce(services, entries, calls, i + 1) == AtOnce(services, entries, calls, i) +
              if Classify(services, entries[i]) == Dispatched && calls[i].answer.Some?
              then [Completed(i, calls[i].answer.value)] else []
  {
    hide Classify;
  }

  lemma {:induction false} NothingServed(s: State, calls: seq<Served>)
    requires Inv(s) && s.next == 0 && s.dispatcher == Looping && |s.copies| == |s.entries| <= |calls|
    requires forall i :: 0 <= i < |s.copies| ==> s.copies[i] == 0
    ensures ServedSoFar(s.services, s.entries, s.copies, s.answered, calls, 0) && s.responses == []
  {
    hide Classify;
    assert SetOf(Entries(s.responses)) == {};
    NoDupCard(Entries(s.responses));
  }

  lemma {:induction false} DoneIfNoCopies(s: State)
    requires Inv(s) && s.dispatcher == Left
    ensures |s.copies| == |s.entries|
    ensures s.done == if forall i :: 0 <= i < |s.copies| ==> s.copies[i] == 0 then [s.responses] else []
  {
    hide Classify, Prefix, ResponsesOk;
    SumZero(s.copies);
  }

  lemma {:induction false} HolderCounts(s: State, l: Label)
    requires Inv(s) && Enabled(s, l)
    ensures s.refs > 0
  {
    hide Classify, DoneOnce, Prefix, ResponsesOk;
    AdderHolds(s, l);
  }
}
