/** Batches on the server: which entries are dispatched, and the reference-counted
    aggregator that answers once the last holder has let go. */
module RpcBatch {
  import opened Sequences
  import opened Json

  datatype ErrorCode = ParseError | InvalidRequest | MethodNotFound

  // ----- one entry -----

  /** The procedure names a service has registered. */
  datatype Service = Service(procedures: set<string>, notifications: set<string>)

  type Services = map<string, Service>

  /** What handling one entry comes to. */
  datatype Outcome =
    | Dispatched                                 // handed to a procedure together with `done`
    | Notified                                   // a notification procedure ran
    | RequestError(code: ErrorCode, id: Value)   // RequestException
    | NotifyError(code: ErrorCode)               // NotifyException

  predicate IdType(id: Value) {
    id.Str? || id.Null? || id.I32? || id.I64?
  }

  function ParamCount(request: Value): nat {
    if Has(request, "params") then 1 else 0
  }

  /** The position of the first dot. */
  function FindDot(s: string): (r: Option<nat>)
    ensures r.Some? ==> r.value < |s| && s[r.value] == '.' && '.' !in s[..r.value]
    ensures r.None? ==> '.' !in s
  {
    if s == [] then None
    else if s[0] == '.' then Some(0)
    else
      match FindDot(s[1..])
      case None => None
      case Some(k) => Some(k + 1)
  }

  /** `validateRequest`, for an object that has an id: the error, or none. */
  function ValidateRequest(request: Value): Option<Outcome> {
    var id := Member(request, "id");
    if !Has(request, "id") || !IdType(id) then Some(RequestError(InvalidRequest, Null))
    else if !Member(request, "jsonrpc").Str? then Some(RequestError(InvalidRequest, id))
    else if Member(request, "jsonrpc").s != "2.0" then Some(RequestError(InvalidRequest, id))
    else if !Member(request, "method").Str? then Some(RequestError(InvalidRequest, id))
    else if Member(request, "method").s == "rpc." then Some(RequestError(MethodNotFound, id))
    else if Size(request) != 3 + ParamCount(request) then Some(RequestError(InvalidRequest, id))
    else None
  }

  function HandleSingleRequest(services: Services, request: Value): Outcome {
    match ValidateRequest(request)
    case Some(error) => error
    case None =>
      var id, methodName := Member(request, "id"), Member(request, "method");
      if !methodName.Str? then RequestError(InvalidRequest, id)
      else
        match FindDot(methodName.s)
        case None => RequestError(InvalidRequest, id)
        case Some(pos) =>
          if methodName.s[..pos] !in services then RequestError(MethodNotFound, id)
          else if methodName.s[pos + 1..] == "" then RequestError(InvalidRequest, id)
          else if methodName.s[pos + 1..] !in services[methodName.s[..pos]].procedures then
            RequestError(MethodNotFound, id)
          else Dispatched
  }

  /** `validateNotify`: a missing or mistyped field is a RequestException, the rest are
      NotifyExceptions. */
  function ValidateNotify(request: Value): Option<Outcome> {
    if !Member(request, "jsonrpc").Str? then Some(RequestError(InvalidRequest, Null))
    else if Member(request, "jsonrpc").s != "2.0" then Some(NotifyError(InvalidRequest))
    else if !Member(request, "method").Str? then Some(RequestError(InvalidRequest, Null))
    else if Member(request, "method").s == "rpc." then Some(NotifyError(MethodNotFound))
    else if Size(request) != 2 + ParamCount(request) then Some(NotifyError(InvalidRequest))
    else None
  }

  function HandleSingleNotify(services: Services, request: Value): Outcome {
    match ValidateNotify(request)
    case Some(error) => error
    case None =>
      var methodName := Member(request, "method");
      if !methodName.Str? then RequestError(InvalidRequest, Null)
      else
        match FindDot(methodName.s)
        case None => NotifyError(InvalidRequest)
        case Some(pos) =>
          if pos == 0 then NotifyError(InvalidRequest)
          else if methodName.s[..pos] !in services then RequestError(MethodNotFound, Null)
          else if methodName.s[pos + 1..] == "" then RequestError(InvalidRequest, Null)
          else if methodName.s[pos + 1..] !in services[methodName.s[..pos]].notifications then
            NotifyError(MethodNotFound)
          else Notified
  }

  /** One entry of a batch. */
  function Classify(services: Services, entry: Value): Outcome {
    if !entry.Obj? then RequestError(InvalidRequest, Null)
    else if !Has(entry, "id") then HandleSingleNotify(services, entry)
    else HandleSingleRequest(services, entry)
  }

  predicate Rejected(o: Outcome) {
    o.RequestError? || o.NotifyError?
  }

  /** An id may be a string, null or an integer. */
  predicate IsId(id: Value) {
    !id.Bool? && !id.Double? && !id.Arr? && !id.Obj?
  }

  /** A well-formed call, with no reference to the order in which the code looks. */
  ghost predicate WellFormedCall(services: Services, e: Value) {
    && e.Obj? && Has(e, "id") && IsId(Member(e, "id"))
    && Member(e, "jsonrpc") == Str("2.0")
    && (exists service: string, name: string ::
          && service in services && '.' !in service && name != ""
          && name in services[service].procedures && Member(e, "method") == Str(service + "." + name))
    && forall key :: key in e.members ==> key in {"jsonrpc", "id", "method", "params"}
  }

  lemma {:induction false} DotSplits(s: string, service: string, name: string)
    requires '.' !in service && s == service + "." + name
    ensures FindDot(s) == Some(|service|) && s[..|service|] == service && s[|service| + 1..] == name
    decreases |service|
  {
    if service != "" {
      assert s[0] == service[0];
      assert s[1..] == service[1..] + "." + name;
      DotSplits(s[1..], service[1..], name);
    }
  }

  /** No unknown member is present exactly if the number of members is right. */
  lemma {:induction false} OnlyKnownMembers(e: Value)
    requires Has(e, "id") && Has(e, "jsonrpc") && Has(e, "method")
    ensures Size(e) == 3 + ParamCount(e) <==>
            forall key :: key in e.members ==> key in {"jsonrpc", "id", "method", "params"}
  {
    var base := {"jsonrpc", "id", "method"};
    var known := if Has(e, "params") then base + {"params"} else base;
    assert |base| == 3 && |known| == 3 + ParamCount(e);
    var keys := e.members.Keys;
    assert |keys| == |e.members|;
    SubsetCard(known, keys);
    assert keys == known <==> forall key :: key in keys ==> key in known;
    assert forall key :: key in keys ==> (key in known <==> key in {"jsonrpc", "id", "method", "params"});
  }

  /** The shape of a call that `validateRequest` looks for. */
  ghost predicate CallShape(e: Value) {
    && e.Obj? && Has(e, "id") && IsId(Member(e, "id"))
    && Member(e, "jsonrpc") == Str("2.0") && Member(e, "method").Str?
    && forall key :: key in e.members ==> key in {"jsonrpc", "id", "method", "params"}
  }

  lemma {:induction false} ValidIffShape(e: Value)
    requires e.Obj?
    ensures ValidateRequest(e) == None && Member(e, "method").Str? <==>
            CallShape(e) && Member(e, "method").s != "rpc."
  {
    if Has(e, "id") && Member(e, "jsonrpc").Str? && Member(e, "method").Str? {
      OnlyKnownMembers(e);
    }
  }

  lemma {:induction false} DispatchedIsWellFormed(services: Services, e: Value)
    requires Classify(services, e) == Dispatched
    ensures WellFormedCall(services, e)
  {
    ValidIffShape(e);
    hide ValidateRequest, FindDot, ValidateNotify, HandleSingleNotify;
    var m := Member(e, "method").s;
    var pos := FindDot(m).value;
    assert m == m[..pos] + "." + m[pos + 1..];
  }

  lemma {:induction false} WellFormedIsDispatched(services: Services, e: Value)
    requires WellFormedCall(services, e)
    ensures Classify(services, e) == Dispatched
  {
    ValidIffShape(e);
    hide ValidateRequest, FindDot, ValidateNotify, HandleSingleNotify;
    var service: string, name: string :|
      service in services && '.' !in service && name != "" &&
      name in services[service].procedures && Member(e, "method") == Str(service + "." + name);
    DotSplits(Member(e, "method").s, service, name);
    NotInternal(service, name);
  }

  lemma {:induction false} NotInternal(service: string, name: string)
    requires '.' !in service && name != ""
    ensures service + "." + name != "rpc."
  {
    if service + "." + name == "rpc." {
      DotSplits("rpc.", "rpc", "");
      DotSplits("rpc.", service, name);
    }
  }

  /** The code dispatches exactly the well-formed calls. */
  lemma {:induction false} DispatchedIffWellFormed(services: Services, e: Value)
    ensures Classify(services, e) == Dispatched <==> WellFormedCall(services, e)
  {
    hide *;
    if Classify(services, e) == Dispatched {
      DispatchedIsWellFormed(services, e);
    }
    if WellFormedCall(services, e) {
      WellFormedIsDispatched(services, e);
    }
  }

  // ----- notifications and errors -----

  /** A well-formed notification, again with no reference to the order of the checks. */
  ghost predicate WellFormedNotification(services: Services, e: Value) {
    && e.Obj? && !Has(e, "id") && Member(e, "jsonrpc") == Str("2.0")
    && (exists service: string, name: string ::
          && service in services && '.' !in service && service != "" && name != ""
          && name in services[service].notifications && Member(e, "method") == Str(service + "." + name))
    && forall key :: key in e.members ==> key in {"jsonrpc", "method", "params"}
  }

  lemma {:induction false} OnlyKnownNotifyMembers(e: Value)
    requires !Has(e, "id") && Has(e, "jsonrpc") && Has(e, "method")
    ensures Size(e) == 2 + ParamCount(e) <==>
            forall key :: key in e.members ==> key in {"jsonrpc", "method", "params"}
  {
    var base := {"jsonrpc", "method"};
    var known := if Has(e, "params") then base + {"params"} else base;
    assert |base| == 2 && |known| == 2 + ParamCount(e);
    var keys := e.members.Keys;
    assert |keys| == |e.members|;
    SubsetCard(known, keys);
    assert keys == known <==> forall key :: key in keys ==> key in known;
    assert forall key :: key in keys ==> (key in known <==> key in {"jsonrpc", "method", "params"});
  }

  lemma {:induction false} NotifyShape(e: Value)
    requires e.Obj? && !Has(e, "id")
    ensures ValidateNotify(e) == None && Member(e, "method").Str? <==>
            && Member(e, "jsonrpc") == Str("2.0") && Member(e, "method").Str? && Member(e, "method").s != "rpc."
            && forall key :: key in e.members ==> key in {"jsonrpc", "method", "params"}
  {
    if Member(e, "jsonrpc").Str? && Member(e, "method").Str? {
      OnlyKnownNotifyMembers(e);
    }
  }

  lemma {:induction false} NotifiedIsWellFormed(services: Services, e: Value)
    requires Classify(services, e) == Notified
    ensures WellFormedNotification(services, e)
  {
    NotifyShape(e);
    hide ValidateNotify, FindDot, ValidateRequest, HandleSingleRequest;
    var m := Member(e, "method").s;
    var pos := FindDot(m).value;
    assert m == m[..pos] + "." + m[pos + 1..];
  }

  lemma {:induction false} WellFormedIsNotified(services: Services, e: Value)
    requires WellFormedNotification(services, e)
    ensures Classify(services, e) == Notified
  {
    NotifyShape(e);
    hide ValidateNotify, FindDot, ValidateRequest, HandleSingleRequest;
    var service: string, name: string :|
      service in services && '.' !in service && service != "" && name != "" &&
      name in services[service].notifications && Member(e, "method") == Str(service + "." + name);
    DotSplits(Member(e, "method").s, service, name);
    NotInternal(service, name);
  }

  /** A notification procedure runs exactly for the well-formed notifications. */
  lemma {:induction false} NotifiedIffWellFormed(services: Services, e: Value)
    ensures Classify(services, e) == Notified <==> WellFormedNotification(services, e)
  {
    hide *;
    if Classify(services, e) == Notified {
      NotifiedIsWellFormed(services, e);
    }
    if WellFormedNotification(services, e) {
      WellFormedIsNotified(services, e);
    }
  }

  /** Section 5: an error response carries the id of its request, or null if there is no
      usable one. */
  lemma {:induction false} ErrorCarriesId(services: Services, e: Value)
    requires Classify(services, e).RequestError?
    ensures Classify(services, e).id == if Has(e, "id") && IsId(Member(e, "id")) then Member(e, "id") else Null
  {
    hide FindDot;
  }

  /** A call of the right version and with a method, whose method names nothing: it is the
      reserved one, or its service or its procedure is not registered. */
  ghost predicate CallsNothing(services: Services, e: Value) {
    && e.Obj? && Has(e, "id") && IsId(Member(e, "id"))
    && Member(e, "jsonrpc") == Str("2.0") && Member(e, "method").Str?
    && (Member(e, "method") == Str("rpc.") ||
        (CallShape(e) && exists service: string, name: string ::
           && '.' !in service && Member(e, "method") == Str(service + "." + name)
           && (service !in services || (name != "" && name !in services[service].procedures))))
  }

  /** A notification to a service that is not registered. */
  ghost predicate NotifiesNothing(services: Services, e: Value) {
    && e.Obj? && !Has(e, "id") && Member(e, "jsonrpc") == Str("2.0") && Member(e, "method") != Str("rpc.")
    && (forall key :: key in e.members ==> key in {"jsonrpc", "method", "params"})
    && exists service: string, name: string ::
         '.' !in service && service != "" && service !in services && Member(e, "method") == Str(service + "." + name)
  }

  lemma {:induction false} CallCode(services: Services, e: Value)
    requires e.Obj? && Has(e, "id") && Classify(services, e).RequestError?
    ensures Classify(services, e).code == (if CallsNothing(services, e) then MethodNotFound else InvalidRequest)
  {
    ValidIffShape(e);
    hide FindDot;
    if Member(e, "method").Str? && ValidateRequest(e) == None {
      var m := Member(e, "method").s;
      if FindDot(m).Some? {
        var pos := FindDot(m).value;
        assert m == m[..pos] + "." + m[pos + 1..];
      }
      if CallsNothing(services, e) {
        var service: string, name: string :|
          && '.' !in service && m == service + "." + name
          && (service !in services || (name != "" && name !in services[service].procedures));
        DotSplits(m, service, name);
      }
    }
  }

  lemma {:induction false} NotifyCode(services: Services, e: Value)
    requires e.Obj? && !Has(e, "id") && Classify(services, e).RequestError?
    ensures Classify(services, e).code == (if NotifiesNothing(services, e) then MethodNotFound else InvalidRequest)
  {
    NotifyShape(e);
    hide FindDot;
    if Member(e, "method").Str? && ValidateNotify(e) == None {
      var m := Member(e, "method").s;
      if FindDot(m).Some? {
        var pos := FindDot(m).value;
        assert m == m[..pos] + "." + m[pos + 1..];
      }
      if NotifiesNothing(services, e) {
        var service: string, name: string :|
          '.' !in service && service != "" && service !in services && m == service + "." + name;
        DotSplits(m, service, name);
      }
    }
  }

  /** A request error says "method not found" exactly for the calls and notifications that
      name nothing, and "invalid request" otherwise. */
  lemma {:induction false} ErrorCodeIff(services: Services, e: Value)
    requires Classify(services, e).RequestError?
    ensures Classify(services, e).code ==
            if CallsNothing(services, e) || NotifiesNothing(services, e) then MethodNotFound else InvalidRequest
  {
    if e.Obj? {
      if Has(e, "id") {
        CallCode(services, e);
      } else {
        NotifyCode(services, e);
      }
    }
    hide HandleSingleRequest, HandleSingleNotify;
  }

  /** An entry that the loop over a batch passes by. */
  ghost predicate Accepted(services: Services, e: Value) {
    WellFormedCall(services, e) || WellFormedNotification(services, e)
  }

  lemma {:induction false} AcceptedIff(services: Services, e: Value)
    ensures Accepted(services, e) <==> !Rejected(Classify(services, e))
  {
    DispatchedIffWellFormed(services, e);
    NotifiedIffWellFormed(services, e);
    hide WellFormedCall, WellFormedNotification, Classify;
  }

  // ----- section 6 of the JSON-RPC 2.0 specification -----

  /** Section 4.1: a notification is a valid request object without an id. By section 4.2
      its parameters, if it has any, are an array or an object. */
  predicate IsNotification(e: Value) {
    && e.Obj? && !Has(e, "id") && Member(e, "jsonrpc") == Str("2.0") && Member(e, "method").Str?
    && (Has(e, "params") ==> Member(e, "params").Arr? || Member(e, "params").Obj?)
  }

  /** Every entry of a batch wants a response, except the notifications. */
  predicate Wants(e: Value) {
    !IsNotification(e)
  }

  /** What the server answers: the calls, and what it rejects by a RequestException. */
  predicate Answers(o: Outcome) {
    o == Dispatched || o.RequestError?
  }

  /** The method names a service that is not registered, or no procedure. */
  ghost predicate NoTarget(services: Services, e: Value) {
    && e.Obj? && (forall key :: key in e.members ==> key in {"jsonrpc", "method", "params"})
    && Member(e, "method") != Str("rpc.")
    && exists service: string, name: string ::
         && '.' !in service && service != "" && (service !in services || name == "")
         && Member(e, "method") == Str(service + "." + name)
  }

  /** A notification that the server answers, with an error: it looks for the target
      behind the checks for a notification, but throws as it does for a call. */
  ghost predicate Unasked(services: Services, e: Value) {
    IsNotification(e) && NoTarget(services, e)
  }

  /** No notification, but taken for one for its lack of an id: it states another
      version, or its parameters are neither array nor object. */
  ghost predicate Ignored(services: Services, e: Value) {
    && e.Obj? && !Has(e, "id") && Member(e, "jsonrpc").Str? && Wants(e)
    && (Member(e, "jsonrpc").s == "2.0" ==> Member(e, "method").Str? && !NoTarget(services, e))
  }

  lemma {:induction false} NoTargetMeans(services: Services, e: Value)
    requires e.Obj? && !Has(e, "id") && Member(e, "jsonrpc") == Str("2.0") && Member(e, "method").Str?
    ensures NoTarget(services, e) <==> HandleSingleNotify(services, e).RequestError?
  {
    NotifyShape(e);
    hide ValidateNotify, FindDot;
    var m := Member(e, "method").s;
    if HandleSingleNotify(services, e).RequestError? {
      NotifyErrorKind(e);
      var pos := FindDot(m).value;
      assert m == m[..pos] + "." + m[pos + 1..];
    }
    if NoTarget(services, e) {
      var service: string, name: string :|
        '.' !in service && service != "" && (service !in services || name == "") && m == service + "." + name;
      DotSplits(m, service, name);
    }
  }

  lemma {:induction false} NotifyErrorKind(e: Value)
    requires Member(e, "jsonrpc").Str? && Member(e, "method").Str?
    ensures ValidateNotify(e).Some? ==> ValidateNotify(e).value.NotifyError?
  {
  }

  /** The server does with an entry what section 6 wants exactly if the entry is neither
      ignored nor answered unasked. */
  lemma {:induction false} AnswersIff(services: Services, e: Value)
    ensures (Answers(Classify(services, e)) <==> Wants(e)) <==> !Ignored(services, e) && !Unasked(services, e)
    ensures Unasked(services, e) ==> Answers(Classify(services, e))
    ensures Ignored(services, e) ==> !Answers(Classify(services, e))
  {
    if e.Obj? && !Has(e, "id") && Member(e, "jsonrpc") == Str("2.0") && Member(e, "method").Str? {
      NoTargetMeans(services, e);
    }
    hide FindDot, NoTarget;
  }
}
