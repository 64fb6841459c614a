/** The client's table of pending calls. */
module ClientCalls {
  import opened Sequences
  import opened Json

  /** A callback, known by a number. */
  type Callback = int

  /** ResponseException, with the id it names if it names one. */
  datatype Failure = Failure(id: Option<int>)

  /** One invocation of a callback. */
  datatype Invocation = Invocation(id: int, cb: Callback, response: Value, isError: bool)

  /** `callbacks` and `id` are the object's fields. `registered` lists the callback of
      every call so far, `log` the invocations, and `dropped` the ids whose callback
      was erased because of a malformed response. */
  datatype State = State(
    id: nat, callbacks: map<int, Callback>,
    registered: seq<Callback>, log: seq<Invocation>, dropped: set<int>)

  /** An unparsable body is None. */
  datatype Event = Call(cb: Callback) | Message(body: Option<Value>)

  // ----- one response -----

  /** `validateResponse`: the failure, or none. */
  function ValidateResponse(r: Value): Option<Failure> {
    if Size(r) != 3 then Some(Failure(None))
    else if !Has(r, "id") || !Member(r, "id").I32? then Some(Failure(None))
    else
      var id := Member(r, "id").i;
      if !Has(r, "jsonrpc") || !Member(r, "jsonrpc").Str? then Some(Failure(Some(id)))
      else if Member(r, "jsonrpc").s != "2.0" then Some(Failure(Some(id)))
      else if Has(r, "result") then None
      else if !Has(r, "error") || !Member(r, "error").Obj? then Some(Failure(Some(id)))
      else None
  }

  /** Section 5 of the JSON-RPC 2.0 specification, with the id an int32: three members,
      which are the version, the id, and either a result or an error object. */
  ghost predicate IsResponse(r: Value) {
    && r.Obj? && Member(r, "jsonrpc") == Str("2.0") && Has(r, "id") && Member(r, "id").I32?
    && (r.members.Keys == {"jsonrpc", "id", "result"} ||
        (r.members.Keys == {"jsonrpc", "id", "error"} && Member(r, "error").Obj?))
  }

  function IdOf(r: Value): int {
    if Member(r, "id").I32? then Member(r, "id").i else -1
  }

  /** The code accepts exactly those objects. */
  lemma {:induction false} ValidIffResponse(r: Value)
    ensures ValidateResponse(r) == None <==> IsResponse(r)
  {
    if Has(r, "id") && Has(r, "jsonrpc") {
      var keys := r.members.Keys;
      assert |keys| == |r.members|;
      ThreeKeys(keys, "result");
      ThreeKeys(keys, "error");
    }
    if IsResponse(r) {
      assert |r.members.Keys| == |r.members|;
      assert "result" in r.members.Keys || "error" in r.members.Keys;
    }
  }

  lemma {:induction false} ThreeKeys(keys: set<string>, third: string)
    requires "id" in keys && "jsonrpc" in keys && third in {"result", "error"}
    ensures third in keys ==> (|keys| == 3 <==> keys == {"jsonrpc", "id", third})
  {
    var known := {"jsonrpc", "id", third};
    assert |known| == 3;
    if third in keys {
      SubsetCard(known, keys);
    }
  }

  /** `handleSingleResponse`: a valid response to a pending call runs its callback and
      removes it; one to any other id is ignored. */
  function HandleSingle(s: State, r: Value): (State, Option<Failure>) {
    match ValidateResponse(r)
    case Some(f) => (s, Some(f))
    case None =>
      var id := IdOf(r);
      if id !in s.callbacks then (s, None)
      else
        (s.(callbacks := s.callbacks - {id},
            log := s.log + [Invocation(id, s.callbacks[id], r, !Has(r, "result"))]), None)
  }

  /** The elements of a batch, up to the first failure. */
  function HandleItems(s: State, items: seq<Value>): (State, Option<Failure>) {
    if items == [] then (s, None)
    else
      var (s1, f1) := HandleItems(s, items[..|items| - 1]);
      if f1.Some? then (s1, f1) else HandleSingle(s1, items[|items| - 1])
  }

  function HandleBody(s: State, body: Option<Value>): (State, Option<Failure>) {
    match body
    case None => (s, Some(Failure(None)))
    case Some(v) =>
      match v
      case Obj(_) => HandleSingle(s, v)
      case Arr(items) => if items == [] then (s, Some(Failure(None))) else HandleItems(s, items)
      case _ => (s, Some(Failure(None)))
  }

  /** `onMessage` catches the failure and erases the callback it names. */
  function Caught(s: State, f: Option<Failure>): State {
    match f
    case Some(Failure(Some(id))) =>
      s.(callbacks := s.callbacks - {id}, dropped := s.dropped + if id in s.callbacks then {id} else {})
    case _ => s
  }

  function Apply(s: State, e: Event): State {
    match e
    case Call(cb) =>
      s.(id := s.id + 1, callbacks := s.callbacks[s.id := cb], registered := s.registered + [cb])
    case Message(body) =>
      var (t, f) := HandleBody(s, body);
      Caught(t, f)
  }

  const START: State := State(0, map[], [], [], {})

  function RunAll(events: seq<Event>): State {
    if events == [] then START else Apply(RunAll(events[..|events| - 1]), events[|events| - 1])
  }

  // ----- invariants -----

  ghost predicate Answered(s: State, id: int) {
    exists k :: 0 <= k < |s.log| && s.log[k].id == id
  }

  /** Pending, answered and dropped ids are three disjoint sets. */
  ghost predicate Split(s: State) {
    && |s.registered| == s.id
    && (forall id :: 0 <= id < s.id ==> id in s.callbacks || id in s.dropped || Answered(s, id))
    && (forall id :: id in s.callbacks ==> 0 <= id < s.id && id !in s.dropped && !Answered(s, id))
    && (forall id :: id in s.dropped ==> 0 <= id < s.id && !Answered(s, id))
    && (forall id :: Answered(s, id) ==> 0 <= id < s.id)
  }

  /** An invocation runs the callback registered for its id, with a valid response that
      carries this id. */
  ghost predicate RightCallback(s: State, v: Invocation) {
    && 0 <= v.id < |s.registered| && v.cb == s.registered[v.id]
    && IsResponse(v.response) && IdOf(v.response) == v.id
    && (v.isError <==> !Has(v.response, "result"))
  }

  ghost predicate LogOk(s: State) {
    && (forall id :: id in s.callbacks ==> 0 <= id < |s.registered| && s.callbacks[id] == s.registered[id])
    && (forall k :: 0 <= k < |s.log| ==> RightCallback(s, s.log[k]))
    && (forall j, k :: 0 <= j < k < |s.log| ==> s.log[j].id != s.log[k].id)
  }

  ghost predicate Inv(s: State) {
    Split(s) && LogOk(s)
  }

  lemma {:induction false} CallKeeps(s: State, cb: Callback)
    requires Inv(s)
    ensures Inv(Apply(s, Call(cb)))
  {
    hide IsResponse;
    var t := Apply(s, Call(cb));
    forall id ensures Answered(t, id) <==> Answered(s, id) {
    }
    forall k | 0 <= k < |t.log| ensures RightCallback(t, t.log[k]) {
      assert RightCallback(s, s.log[k]);
    }
  }

  lemma {:induction false} SingleKeeps(s: State, r: Value)
    requires Inv(s)
    ensures Inv(HandleSingle(s, r).0)
    ensures HandleSingle(s, r).0.id == s.id && HandleSingle(s, r).0.registered == s.registered
  {
    ValidIffResponse(r);
    hide IsResponse, ValidateResponse;
    var t := HandleSingle(s, r).0;
    if t != s {
      var id := IdOf(r);
      assert t.log == s.log + [Invocation(id, s.callbacks[id], r, !Has(r, "result"))];
      assert t.log[|s.log|].id == id;
      forall q ensures Answered(t, q) <==> Answered(s, q) || q == id {
        if Answered(s, q) {
          var k :| 0 <= k < |s.log| && s.log[k].id == q;
          assert t.log[k].id == q;
        }
      }
      assert !Answered(s, id);
      LogGrows(s, t);
    }
  }

  lemma {:induction false} LogGrows(s: State, t: State)
    requires LogOk(s) && t.registered == s.registered && |t.log| == |s.log| + 1 && t.log[..|s.log|] == s.log
    requires forall id :: id in t.callbacks ==> id in s.callbacks && t.callbacks[id] == s.callbacks[id]
    requires RightCallback(t, t.log[|s.log|]) && !Answered(s, t.log[|s.log|].id)
    ensures LogOk(t)
  {
    hide IsResponse;
    forall k | 0 <= k < |t.log| ensures RightCallback(t, t.log[k]) {
      if k < |s.log| {
        assert t.log[k] == s.log[k];
        assert RightCallback(s, s.log[k]);
      }
    }
    forall j, k | 0 <= j < k < |t.log| ensures t.log[j].id != t.log[k].id {
      assert t.log[j] == s.log[j];
    }
  }

  lemma {:induction false} ItemsKeep(s: State, items: seq<Value>)
    requires Inv(s)
    ensures Inv(HandleItems(s, items).0)
    decreases |items|
  {
    hide Inv, HandleSingle;
    if items != [] {
      ItemsKeep(s, items[..|items| - 1]);
      SingleKeeps(HandleItems(s, items[..|items| - 1]).0, items[|items| - 1]);
    }
  }

  lemma {:induction false} CaughtKeeps(s: State, f: Option<Failure>)
    requires Inv(s)
    ensures Inv(Caught(s, f))
  {
    hide IsResponse;
    var t := Caught(s, f);
    forall id ensures Answered(t, id) <==> Answered(s, id) {
    }
    forall k | 0 <= k < |t.log| ensures RightCallback(t, t.log[k]) {
      assert RightCallback(s, s.log[k]);
    }
  }

  lemma {:induction false} StepKeepsInv(s: State, e: Event)
    requires Inv(s)
    ensures Inv(Apply(s, e))
  {
    hide Inv, HandleSingle, HandleItems, Caught;
    match e
    case Call(cb) => CallKeeps(s, cb);
    case Message(body) =>
      if body.Some? {
        SingleKeeps(s, body.value);
        if body.value.Arr? {
          ItemsKeep(s, body.value.items);
        }
      }
      CaughtKeeps(HandleBody(s, body).0, HandleBody(s, body).1);
  }

  lemma {:induction false} RunKeepsInv(events: seq<Event>)
    ensures Inv(RunAll(events))
    decreases |events|
  {
    if events != [] {
      hide Inv, Apply;
      RunKeepsInv(events[..|events| - 1]);
      StepKeepsInv(RunAll(events[..|events| - 1]), events[|events| - 1]);
    }
  }

  // ----- what every run keeps -----

  /** Every id handed out is in exactly one of three states. */
  lemma {:induction false} IdsSplit(events: seq<Event>, id: int)
    ensures var s := RunAll(events);
            && (0 <= id < s.id <==> id in s.callbacks || id in s.dropped || Answered(s, id))
            && !(id in s.callbacks && id in s.dropped)
            && !(id in s.callbacks && Answered(s, id))
            && !(id in s.dropped && Answered(s, id))
  {
    hide RunAll, LogOk;
    RunKeepsInv(events);
  }

  /** Each callback is invoked at most once, and only with a valid response that carries
      the id of its own call. */
  lemma {:induction false} InvokedOnceWithOwnResponse(events: seq<Event>, j: nat, k: nat)
    requires j < |RunAll(events).log| && k < |RunAll(events).log|
    ensures var s := RunAll(events);
            && RightCallback(s, s.log[j])
            && (s.log[j].id == s.log[k].id ==> j == k)
  {
    hide RunAll, Split;
    RunKeepsInv(events);
  }

  // ----- which calls are answered -----

  /** Nothing before element i fails validation. */
  ghost predicate Reached(items: seq<Value>, i: nat) {
    forall j :: 0 <= j < i && j < |items| ==> IsResponse(items[j])
  }

  /** Element i runs a callback: it is a valid response, its id is pending, nothing before
      it fails validation, and nothing before it has the same id. */
  ghost predicate Delivers(s: State, items: seq<Value>, i: nat)
    requires i < |items|
  {
    && Reached(items, i) && IsResponse(items[i]) && IdOf(items[i]) in s.callbacks
    && forall j :: 0 <= j < i ==> IdOf(items[j]) != IdOf(items[i])
  }

  function InvocationOf(s: State, r: Value): Invocation
    requires IdOf(r) in s.callbacks
  {
    Invocation(IdOf(r), s.callbacks[IdOf(r)], r, !Has(r, "result"))
  }

  /** `ps` lists the elements that deliver, in their order. */
  ghost predicate DeliveredAt(s: State, items: seq<Value>, ps: seq<nat>) {
    && (forall k, l :: 0 <= k < l < |ps| ==> ps[k] < ps[l])
    && (forall k :: 0 <= k < |ps| ==> ps[k] < |items| && Delivers(s, items, ps[k]))
    && (forall i: nat :: i < |items| && Delivers(s, items, i) ==> i in ps)
  }

  /** An element listed in `ps` has this id. */
  ghost predicate AnswersId(items: seq<Value>, ps: seq<nat>, id: int) {
    exists k :: 0 <= k < |ps| && ps[k] < |items| && IdOf(items[ps[k]]) == id
  }

  /** The log grows by the invocations for these elements. */
  ghost predicate Logged(s: State, items: seq<Value>, ps: seq<nat>, log: seq<Invocation>) {
    && |log| == |s.log| + |ps| && log[..|s.log|] == s.log
    && forall k :: 0 <= k < |ps| ==>
         && ps[k] < |items| && IdOf(items[ps[k]]) in s.callbacks
         && log[|s.log| + k] == InvocationOf(s, items[ps[k]])
  }

  /** What is left pending is what these elements do not answer. */
  ghost predicate Remaining(s: State, items: seq<Value>, ps: seq<nat>, callbacks: map<int, Callback>) {
    && (forall id :: id in callbacks <==> id in s.callbacks && !AnswersId(items, ps, id))
    && (forall id :: id in callbacks ==> callbacks[id] == s.callbacks[id])
  }

  ghost predicate Effect(s: State, items: seq<Value>, ps: seq<nat>, t: State) {
    && Logged(s, items, ps, t.log) && Remaining(s, items, ps, t.callbacks)
    && t.id == s.id && t.registered == s.registered && t.dropped == s.dropped
  }

  lemma {:induction false} PrefixDelivers(s: State, items: seq<Value>, m: nat, i: nat)
    requires i < m <= |items|
    ensures Delivers(s, items[..m], i) <==> Delivers(s, items, i)
  {
    hide IsResponse, IdOf;
    assert Reached(items[..m], i) <==> Reached(items, i);
  }

  lemma {:induction false} DeliveredSnoc(s: State, items: seq<Value>, before: seq<nat>)
    requires items != [] && DeliveredAt(s, items[..|items| - 1], before)
    ensures DeliveredAt(s, items, before + if Delivers(s, items, |items| - 1) then [|items| - 1] else [])
  {
    var m := |items| - 1;
    forall i: nat | i < m ensures Delivers(s, items[..m], i) <==> Delivers(s, items, i) {
      PrefixDelivers(s, items, m, i);
    }
    hide Delivers;
    var ps := before + if Delivers(s, items, m) then [m] else [];
    forall i: nat | i < |items| && Delivers(s, items, i) ensures i in ps {
      assert i < m ==> i in before;
    }
  }

  /** An id that a valid response before element m has is no longer pending there. */
  lemma {:induction false} Taken(s: State, items: seq<Value>, m: nat, before: seq<nat>, j: nat)
    requires j < m <= |items| && Reached(items, m) && DeliveredAt(s, items[..m], before)
    requires IdOf(items[j]) in s.callbacks
    ensures AnswersId(items[..m], before, IdOf(items[j]))
    decreases j
  {
    hide IsResponse, IdOf;
    if i :| 0 <= i < j && IdOf(items[i]) == IdOf(items[j]) {
      Taken(s, items, m, before, i);
    } else {
      assert Delivers(s, items[..m], j);
      var k :| 0 <= k < |before| && before[k] == j;
    }
  }

  lemma {:induction false} DeliversIffPending(s: State, items: seq<Value>, before: seq<nat>, t: State)
    requires items != [] && Reached(items, |items| - 1)
    requires DeliveredAt(s, items[..|items| - 1], before) && Effect(s, items[..|items| - 1], before, t)
    ensures var m := |items| - 1;
            Delivers(s, items, m) <==> IsResponse(items[m]) && IdOf(items[m]) in t.callbacks
  {
    var m := |items| - 1;
    var id := IdOf(items[m]);
    hide IsResponse, IdOf;
    if j :| 0 <= j < m && IdOf(items[j]) == id && id in s.callbacks {
      Taken(s, items, m, before, j);
    }
  }

  lemma {:induction false} SameElements(s: State, items: seq<Value>, before: seq<nat>, t: State)
    requires items != [] && Effect(s, items[..|items| - 1], before, t)
    ensures Effect(s, items, before, t)
  {
    hide IdOf;
    var m := |items| - 1;
    forall id ensures AnswersId(items, before, id) <==> AnswersId(items[..m], before, id) {
    }
  }

  lemma {:induction false} OneMore(s: State, items: seq<Value>, before: seq<nat>, m: nat, t: State, u: State)
    requires Effect(s, items, before, t) && m < |items| && IdOf(items[m]) in t.callbacks
    requires u == t.(callbacks := t.callbacks - {IdOf(items[m])}, log := t.log + [InvocationOf(t, items[m])])
    ensures Effect(s, items, before + [m], u)
  {
    hide IdOf;
    var ps := before + [m];
    forall id ensures AnswersId(items, ps, id) <==> AnswersId(items, before, id) || id == IdOf(items[m]) {
      if AnswersId(items, before, id) {
        var k :| 0 <= k < |before| && before[k] < |items| && IdOf(items[before[k]]) == id;
        assert ps[k] == before[k];
      }
      assert ps[|before|] == m;
    }
  }

  /** A further element of an array, behind elements that are all valid. */
  lemma {:induction false} NextEffect(s: State, items: seq<Value>, before: seq<nat>, t: State)
    requires items != [] && Reached(items, |items| - 1)
    requires DeliveredAt(s, items[..|items| - 1], before) && Effect(s, items[..|items| - 1], before, t)
    ensures var m := |items| - 1;
            Effect(s, items, before + (if Delivers(s, items, m) then [m] else []), HandleSingle(t, items[m]).0)
  {
    var m := |items| - 1;
    ValidIffResponse(items[m]);
    DeliversIffPending(s, items, before, t);
    SameElements(s, items, before, t);
    hide IsResponse, ValidateResponse, IdOf, Delivers, Effect, DeliveredAt;
    if Delivers(s, items, m) {
      OneMore(s, items, before, m, t, HandleSingle(t, items[m]).0);
    } else {
      assert before + [] == before;
    }
  }

  /** Handling an array runs the callbacks of exactly the elements that deliver, in their
      order. It fails if some element is no response, and then as the first of these does. */
  lemma {:induction false} ItemsDeliver(s: State, items: seq<Value>) returns (ps: seq<nat>)
    ensures DeliveredAt(s, items, ps) && Effect(s, items, ps, HandleItems(s, items).0)
    ensures HandleItems(s, items).1 == None <==> Reached(items, |items|)
    ensures forall i: nat :: i < |items| && Reached(items, i) && !IsResponse(items[i]) ==>
              HandleItems(s, items).1 == ValidateResponse(items[i])
    decreases |items|
  {
    ps := [];
    if items != [] {
      var m := |items| - 1;
      var before := ItemsDeliver(s, items[..m]);
      var t := HandleItems(s, items[..m]).0;
      DeliveredSnoc(s, items, before);
      ValidIffResponse(items[m]);
      FirstInvalid(items);
      hide IsResponse, ValidateResponse, IdOf, Effect, DeliveredAt, Reached;
      ps := before + if Delivers(s, items, m) then [m] else [];
      if Reached(items, m) {
        NextEffect(s, items, before, t);
      } else {
        SameElements(s, items, before, t);
        assert before + [] == before;
      }
    }
  }

  lemma {:induction false} FirstInvalid(items: seq<Value>)
    requires items != []
    ensures var m := |items| - 1;
            && (Reached(items[..m], m) <==> Reached(items, m))
            && (Reached(items, m + 1) <==> Reached(items, m) && IsResponse(items[m]))
            && (forall i :: 0 <= i < m ==> (Reached(items[..m], i) <==> Reached(items, i)))
            && (forall i :: 0 <= i < m && Reached(items, m) ==> IsResponse(items[i]))
  {
    hide IsResponse;
  }

  /** The response has the right size and names this id, but is not valid. */
  ghost predicate Blames(r: Value, id: int) {
    !IsResponse(r) && Size(r) == 3 && Has(r, "id") && Member(r, "id").I32? && Member(r, "id").i == id
  }

  lemma {:induction false} BlamesIff(r: Value, id: int)
    ensures ValidateResponse(r) == Some(Failure(Some(id))) <==> Blames(r, id)
  {
    ValidIffResponse(r);
    hide IsResponse;
  }

  /** A batch of responses: exactly the elements that deliver run their callbacks, in
      order, and besides their ids only one that the first invalid element names is no
      longer pending. */
  lemma {:induction false} BatchDelivers(s: State, items: seq<Value>) returns (ps: seq<nat>)
    requires items != []
    ensures DeliveredAt(s, items, ps)
    ensures var t := Apply(s, Message(Some(Arr(items))));
            && Logged(s, items, ps, t.log)
            && (forall id :: id in t.callbacks ==> id in s.callbacks && t.callbacks[id] == s.callbacks[id])
            && forall id :: id in t.callbacks <==>
                 && id in s.callbacks && !AnswersId(items, ps, id)
                 && forall i :: 0 <= i < |items| && Reached(items, i) ==> !Blames(items[i], id)
  {
    ps := ItemsDeliver(s, items);
    var (u, f) := HandleItems(s, items);
    forall i, id | 0 <= i < |items| && Reached(items, i)
      ensures Blames(items[i], id) <==> !IsResponse(items[i]) && f == Some(Failure(Some(id)))
    {
      BlamesIff(items[i], id);
      hide ValidateResponse, HandleItems;
    }
    if f.Some? {
      var i := Offender(items);
    }
    hide IsResponse, ValidateResponse, HandleItems, Blames, Logged, Reached, DeliveredAt, AnswersId;
  }

  lemma {:induction false} Offender(items: seq<Value>) returns (i: nat)
    requires !Reached(items, |items|)
    ensures i < |items| && Reached(items, i) && !IsResponse(items[i])
  {
    hide IsResponse;
    i := 0;
    while IsResponse(items[i])
      invariant i < |items| && Reached(items, i)
      decreases |items| - i
    {
      i := i + 1;
    }
  }

  /** An element that is no response of three members throws the whole rest away: valid
      responses behind it are not delivered, and their calls stay pending. */
  lemma {:induction false} MalformedFirst(s: State, items: seq<Value>)
    requires items != [] && Size(items[0]) != 3
    ensures Apply(s, Message(Some(Arr(items)))).callbacks == s.callbacks
    ensures Apply(s, Message(Some(Arr(items)))).log == s.log
  {
    var ps := BatchDelivers(s, items);
    ValidIffResponse(items[0]);
    assert !IsResponse(items[0]);
    hide IsResponse, ValidateResponse, Apply, IdOf;
    if ps != [] {
      NoneBehind(s, items, ps[0]);
    }
    assert forall i :: 0 < i < |items| ==> !Reached(items, i);
    assert forall id :: !AnswersId(items, ps, id);
    var t := Apply(s, Message(Some(Arr(items))));
    assert forall id :: id in t.callbacks <==> id in s.callbacks;
    assert forall id :: id in t.callbacks ==> t.callbacks[id] == s.callbacks[id];
    assert t.callbacks == s.callbacks;
    assert t.log == t.log[..|s.log|];
  }

  lemma {:induction false} NoneBehind(s: State, items: seq<Value>, i: nat)
    requires i < |items| && !IsResponse(items[0])
    ensures !Delivers(s, items, i)
  {
    hide IsResponse;
  }

  /** An object by itself is handled as an array of this one element. */
  lemma {:induction false} LoneIsBatchOfOne(s: State, v: Value)
    requires v.Obj?
    ensures Apply(s, Message(Some(v))) == Apply(s, Message(Some(Arr([v]))))
  {
    hide HandleSingle, Caught;
    assert [v][..0] == [];
    assert HandleItems(s, [v]) == HandleSingle(s, v);
  }

  /** A body that is no JSON text, neither object nor array, or an empty array changes
      nothing. */
  lemma {:induction false} UselessBody(s: State, body: Option<Value>)
    requires body.Some? ==> body.value == Arr([]) || (!body.value.Obj? && !body.value.Arr?)
    ensures Apply(s, Message(body)) == s
  {
    hide HandleSingle, HandleItems;
  }

  // ----- late calls -----

  lemma {:induction false} RunAppends(events: seq<Event>, e: Event)
    ensures RunAll(events + [e]) == Apply(RunAll(events), e)
  {
    assert (events + [e])[..|events|] == events;
  }

  /** A response's id is an int32 while calls are numbered with 64 bits, so a call
      numbered 2^31 or higher is never answered. */
  lemma {:induction false} LateCallsNeverAnswered(events: seq<Event>, id: int)
    requires id >= 0x8000_0000
    ensures !Answered(RunAll(events), id)
  {
    hide RunAll, Split;
    RunKeepsInv(events);
    var s := RunAll(events);
    forall k | 0 <= k < |s.log| ensures s.log[k].id < 0x8000_0000 {
      assert RightCallback(s, s.log[k]);
    }
  }

  /** A valid response to a pending call, as a body of its own, is delivered. */
  lemma {:induction false} PendingIsAnswered(s: State, r: Value)
    requires IsResponse(r) && IdOf(r) in s.callbacks
    ensures var t := Apply(s, Message(Some(r)));
            t.log == s.log + [InvocationOf(s, r)] && t.callbacks == s.callbacks - {IdOf(r)}
  {
    ValidIffResponse(r);
    hide ValidateResponse;
  }

  function ResponseTo(id: Int32): Value {
    Obj(map["jsonrpc" := Str("2.0"), "id" := I32(id), "result" := Null])
  }

  /** A pending call can still be answered, at once or later, exactly if its number is
      below 2^31. */
  lemma {:induction false} AnswerableIff(events: seq<Event>, id: int)
    requires id in RunAll(events).callbacks
    ensures (exists r :: Answered(Apply(RunAll(events), Message(Some(r))), id)) <==> id < 0x8000_0000
    ensures (exists more :: Answered(RunAll(events + more), id)) <==> id < 0x8000_0000
  {
    RunKeepsInv(events);
    var s := RunAll(events);
    assert 0 <= id;
    hide RunAll, Apply, Inv;
    forall r ensures RunAll(events + [Message(Some(r))]) == Apply(s, Message(Some(r))) {
      RunAppends(events, Message(Some(r)));
    }
    if id < 0x8000_0000 {
      var r := ResponseTo(id);
      ResponseToIsResponse(id);
      PendingIsAnswered(s, r);
      var t := Apply(s, Message(Some(r)));
      assert t.log[|s.log|].id == id;
      assert Answered(t, id);
    } else {
      forall more ensures !Answered(RunAll(events + more), id) {
        LateCallsNeverAnswered(events + more, id);
      }
    }
  }

  lemma {:induction false} ResponseToIsResponse(id: Int32)
    ensures IsResponse(ResponseTo(id)) && IdOf(ResponseTo(id)) == id
  {
    assert ResponseTo(id).members.Keys == {"jsonrpc", "id", "result"};
  }

  function Calls(n: nat): seq<Event> {
    if n == 0 then [] else Calls(n - 1) + [Call(0)]
  }

  lemma {:induction false} OneCall(s: State, cb: Callback)
    ensures Apply(s, Call(cb)).id == s.id + 1 && Apply(s, Call(cb)).callbacks == s.callbacks[s.id := cb]
  {
  }

  lemma {:induction false} CallsPend(n: nat)
    ensures RunAll(Calls(n)).id == n && forall id :: 0 <= id < n ==> id in RunAll(Calls(n)).callbacks
    decreases n
  {
    if n > 0 {
      assert Calls(n) == Calls(n - 1) + [Call(0)];
      hide *;
      CallsPend(n - 1);
      RunAppends(Calls(n - 1), Call(0));
      OneCall(RunAll(Calls(n - 1)), 0);
    }
  }

  /** After so many calls the last one waits for ever. */
  lemma {:induction false} LateCallExists() returns (events: seq<Event>)
    ensures 0x8000_0000 in RunAll(events).callbacks
    ensures forall more :: !Answered(RunAll(events + more), 0x8000_0000)
  {
    events := Calls(0x8000_0001);
    CallsPend(0x8000_0001);
    AnswerableIff(events, 0x8000_0000);
  }

  // ----- the class -----

  class BaseClient {
    var id: nat
    var callbacks: map<int, Callback>
    ghost var registered: seq<Callback>
    ghost var log: seq<Invocation>
    ghost var dropped: set<int>

    ghost function View(): State
      reads this
    {
      State(id, callbacks, registered, log, dropped)
    }

    constructor ()
      ensures View() == START && Inv(View())
    {
      id, callbacks := 0, map[];
      registered, log, dropped := [], [], {};
      new;
      RunKeepsInv([]);
    }

    /** Remembers the callback under the next id, which the call then carries. */
    method SendCall(cb: Callback) returns (callId: nat)
      requires Inv(View())
      modifies this
      ensures View() == Apply(old(View()), Call(cb)) && Inv(View()) && callId == old(id)
      ensures id == callId + 1 && callbacks == old(callbacks)[callId := cb]
    {
      hide Inv;
      StepKeepsInv(View(), Call(cb));
      callId := id;
      callbacks := callbacks[id := cb];
      registered := registered + [cb];
      id := id + 1;
    }

    /** `invoked` is the callback that ran, if one did. */
    method HandleSingleResponse(response: Value) returns (failure: Option<Failure>, invoked: Option<Callback>)
      modifies this`callbacks, this`log
      ensures (View(), failure) == HandleSingle(old(View()), response)
      ensures invoked == if failure.None? && IdOf(response) in old(callbacks)
                         then Some(old(callbacks)[IdOf(response)]) else None
    {
      hide ValidateResponse;
      failure, invoked := ValidateResponse(response), None;
      if failure.Some? {
        return;
      }
      var responseId := IdOf(response);
      if responseId !in callbacks {
        return;
      }
      invoked := Some(callbacks[responseId]);
      log := log + [Invocation(responseId, callbacks[responseId], response, !Has(response, "result"))];
      callbacks := callbacks - {responseId};
    }

    method HandleResponse(body: Option<Value>) returns (failure: Option<Failure>)
      modifies this`callbacks, this`log
      ensures (View(), failure) == HandleBody(old(View()), body)
    {
      hide HandleSingle;
      failure := Some(Failure(None));
      if body.Some? {
        var invoked;
        match body.value
        case Obj(_) =>
          failure, invoked := HandleSingleResponse(body.value);
        case Arr(items) =>
          if items != [] {
            failure := None;
            var i := 0;
            while i < |items| && failure.None?
              invariant 0 <= i <= |items|
              invariant (View(), failure) == HandleItems(old(View()), items[..i])
            {
              assert items[..i + 1][..i] == items[..i];
              failure, invoked := HandleSingleResponse(items[i]);
              i := i + 1;
            }
            FailureStays(old(View()), items, i);
          }
        case _ =>
      }
    }

    method OnMessage(body: Option<Value>)
      requires Inv(View())
      modifies this
      ensures View() == Apply(old(View()), Message(body)) && Inv(View())
    {
      hide Inv, HandleBody;
      StepKeepsInv(View(), Message(body));
      var failure := HandleResponse(body);
      if failure.Some? && failure.value.id.Some? {
        var bad := failure.value.id.value;
        dropped := dropped + if bad in callbacks then {bad} else {};
        callbacks := callbacks - {bad};
      }
    }
  }

  /** Nothing after a failure is looked at. */
  lemma {:induction false} FailureStays(s: State, items: seq<Value>, i: nat)
    requires i <= |items| && (i == |items| || HandleItems(s, items[..i]).1.Some?)
    ensures HandleItems(s, items) == HandleItems(s, items[..i])
    decreases |items|
  {
    hide HandleSingle;
    if i == |items| {
      assert items[..i] == items;
    } else {
      var m := |items| - 1;
      assert items[..m][..i] == items[..i];
      FailureStays(s, items[..m], i);
    }
  }
}
