/** The earlier service of part3.py: the same registry and stack engine with no request
    counter, no logger registry, no numeric conversion of arguments (they are integers here)
    and a history query that groups the records by flavor. An exception a handler raises is not
    caught here: the connection is dropped without a reply. */
module Part3 {
  import opened Wrappers
  import opened Text
  import opened Operations
  import opened Evaluator
  import opened StackOps
  import opened History
  import opened Protocol

  /** `perform_operation` of part3.py:20-37: lookup, argument count, then the domain checks
      and the function. */
  function Evaluate(name: string, args: seq<int>): (r: Evaluation)
    ensures !r.Raises?
    ensures r.Failed? && Lookup(name).None? <==> r == Failed(UnknownOperation(name))
  {
    match Lookup(name)
    case None => Failed(UnknownOperation(name))
    case Some(op) =>
      if |args| < Arity(op) then Failed(NotEnoughArguments(name))
      else if |args| > Arity(op) then Failed(TooManyArguments(name))
      else Apply(op, name, args)
  }

  /** part3.py words every error as kaplat4/main.py does, except that an exception the function
      raises is reported by its bare text (part3.py:36-37). */
  function ErrorText(e: EvalError): string {
    match e
    case RuntimeFailure(_, d) => d
    case _ => Message(e)
  }

  function Nums(a: seq<int>): (r: seq<Arg>)
    ensures |r| == |a| && forall i :: 0 <= i < |a| ==> r[i] == Num(a[i])
  {
    seq(|a|, i requires 0 <= i < |a| => Num(a[i]))
  }

  /** On integer arguments the two evaluators decide alike: part3.py's is kaplat4/main.py's
      without the conversion step, which integers always pass. */
  lemma AgreesWithMain(name: string, a: seq<int>)
    ensures Evaluate(name, a) == Evaluator.Perform(name, Nums(a))
  {
    var c := Convert(Nums(a));
    assert c.Converted?;
    assert c.values == a;
  }

  datatype Endpoint = HealthCheck | SizeQuery | OperateCall | HistoryCall | CalculateCall
                    | ArgumentsPush | ArgumentsRemoval | NoEndpoint

  /** The path tests of `do_GET`, `do_POST`, `do_PUT` and `do_DELETE`: GET and DELETE compare the
      parsed path, POST and PUT the raw target. */
  function EndpointOf(req: Request<int>): Endpoint {
    match req.verb
    case Get =>
      if req.path == "/calculator/health" then HealthCheck
      else if req.path == "/calculator/stack/size" then SizeQuery
      else if req.path == "/calculator/stack/operate" then OperateCall
      else if req.path == "/calculator/history" then HistoryCall
      else NoEndpoint
    case Post => if TargetIs(req, "/calculator/independent/calculate") then CalculateCall else NoEndpoint
    case Put => if TargetIs(req, "/calculator/stack/arguments") then ArgumentsPush else NoEndpoint
    case Delete => if req.path == "/calculator/stack/arguments" then ArgumentsRemoval else NoEndpoint
  }

  datatype State = State(stack: seq<int>, history: seq<Record<int>>)

  datatype Transition = Transition(state: State, outcome: Outcome<int>)

  function Reply(st: State, status: int, payload: Payload<int>): Transition {
    Transition(st, Replied(Response(status, payload)))
  }

  /** GET /calculator/stack/operate (part3.py:58-85). */
  function OperateSpec(st: State, operation: Option<string>): Transition {
    if operation.None? || operation.value == "" then
      Reply(st, 409, JsonError("Error: unknown operation: None"))
    else if Lookup(operation.value).None? then
      Reply(st, 409, JsonError("Error: unknown operation: " + operation.value))
    else
      var name := operation.value;
      var n := Arity(Lookup(name).value);
      if |st.stack| < n then
        Reply(st, 409, JsonError(InsufficientText(name, n, |st.stack|)))
      else
        var args := PopOrder(st.stack, n);
        var r := Evaluate(name, args);
        if r.Failed? then Reply(st, Code(r), JsonError(ErrorText(r.error)))
        else
          Reply(State(st.stack[..|st.stack| - n], st.history + [Record(Stack, name, args, r.number)]),
                200, JsonResult(Computed(r.number)))
  }

  /** An operate call that does not reply 200 leaves stack and history exactly as they were; a
      successful one shrinks the stack by the arity and records one STACK entry, former top first. */
  lemma OperateRestoresOrConsumes(st: State, name: string)
    ensures var t := OperateSpec(st, Some(name));
            && t.outcome.Replied?
            && (t.outcome.response.status != 200 ==> t.state == st)
            && (t.outcome.response.status == 200 ==>
                  Lookup(name).Some?
                  && var n := Arity(Lookup(name).value);
                     n <= |st.stack|
                     && t.state.stack == st.stack[..|st.stack| - n]
                     && |t.state.history| == |st.history| + 1
                     && t.state.history[..|st.history|] == st.history
                     && t.state.history[|st.history|].flavor == Stack
                     && t.state.history[|st.history|].arguments == PopOrder(st.stack, n))
  {
    var t := OperateSpec(st, Some(name));
    if t.outcome.response.status == 200 {
      assert t.state.history[..|st.history|] == st.history;
    }
  }

  /** A missing operation is reported as the text "None", an empty one too. */
  lemma MissingOperation(st: State)
    ensures OperateSpec(st, None) == Reply(st, 409, JsonError("Error: unknown operation: None"))
    ensures OperateSpec(st, Some("")) == Reply(st, 409, JsonError("Error: unknown operation: None"))
  {
  }

  /** GET /calculator/history (part3.py:86-97). */
  function HistorySpec(st: State, flavor: Option<string>): Transition {
    Reply(st, 200, JsonResult(Records(Grouped(st.history, flavor))))
  }

  /** POST /calculator/independent/calculate (part3.py:103-115): the reply carries the
      evaluator's status code. */
  function CalculateSpec(st: State, body: Body<int>): Transition {
    match body
    case Malformed(d) => Transition(st, Raised(d))
    case Object(None, _) => Transition(st, Raised(NoOperationDetail))
    case Object(Some(name), arguments) =>
      var args := ArgumentsOf(arguments);
      var r := Evaluate(name, args);
      if r.Failed? then Reply(st, Code(r), JsonError(ErrorText(r.error)))
      else Reply(st.(history := st.history + [Record(Independent, name, args, r.number)]),
                 Code(r), JsonResult(Computed(r.number)))
  }

  /** PUT /calculator/stack/arguments (part3.py:120-128). */
  function PushSpec(st: State, body: Body<int>): Transition {
    var r := PushOnto(st.stack, body);
    Transition(st.(stack := r.stack), r.outcome)
  }

  /** DELETE /calculator/stack/arguments (part3.py:133-147). */
  function RemoveSpec(st: State, count: Option<IntText>): Transition {
    var r := RemoveFrom(st.stack, count);
    Transition(st.(stack := r.stack), r.outcome)
  }

  /** Push then remove the same number of entries: the stack is back where it was. */
  lemma PushThenRemove(st: State, vs: seq<int>)
    ensures var t := PushSpec(st, Object(None, Some(vs)));
            RemoveSpec(t.state, Some(Integer(|vs|))).state == st
  {
    var t := PushSpec(st, Object(None, Some(vs)));
    assert t.state.stack[..|t.state.stack| - |vs|] == st.stack;
  }

  function Step(st: State, req: Request<int>): Transition {
    var p := ParamsOf(req);
    match EndpointOf(req)
    case HealthCheck => Reply(st, 200, PlainText("OK"))
    case SizeQuery => Reply(st, 200, JsonResult(Size(|st.stack|)))
    case OperateCall => OperateSpec(st, p.operation)
    case HistoryCall => HistorySpec(st, p.flavor)
    case CalculateCall => CalculateSpec(st, req.body)
    case ArgumentsPush => PushSpec(st, req.body)
    case ArgumentsRemoval => RemoveSpec(st, p.count)
    case NoEndpoint => Transition(st, Replied(NotFound()))
  }

  /** What a request keeps: the history grows by at most one record, and only on a 200 reply;
      a request that raises changes nothing. */
  predicate Keeps(st: State, t: Transition) {
    && |st.history| <= |t.state.history| <= |st.history| + 1
    && t.state.history[..|st.history|] == st.history
    && (|t.state.history| > |st.history| ==> t.outcome.Replied? && t.outcome.response.status == 200)
    && (t.outcome.Raised? ==> t.state == st)
  }

  lemma OperateKeeps(st: State, operation: Option<string>)
    ensures Keeps(st, OperateSpec(st, operation))
  {
    var t := OperateSpec(st, operation);
    assert t.state.history == st.history || t.state.history[..|st.history|] == st.history;
  }

  lemma CalculateKeeps(st: State, body: Body<int>)
    ensures Keeps(st, CalculateSpec(st, body))
  {
    var t := CalculateSpec(st, body);
    assert t.state.history == st.history || t.state.history[..|st.history|] == st.history;
  }

  /** Every request keeps `Keeps`. */
  lemma StepInvariants(st: State, req: Request<int>)
    ensures Keeps(st, Step(st, req))
  {
    var p := ParamsOf(req);
    match EndpointOf(req)
    case OperateCall => OperateKeeps(st, p.operation);
    case CalculateCall => CalculateKeeps(st, req.body);
    case _ => assert Step(st, req).state.history == st.history;
  }

  /** The module globals `stack` and `history` of part3.py, with the handlers that change them. */
  class Service {
    var stack: seq<int>
    var history: seq<Record<int>>

    ghost function Snapshot(): State
      reads this
    {
      State(stack, history)
    }

    constructor ()
      ensures Snapshot() == State([], [])
    {
      stack, history := [], [];
    }

    method Operate(operation: Option<string>) returns (out: Outcome<int>)
      modifies this
      ensures Transition(Snapshot(), out) == OperateSpec(old(Snapshot()), operation)
    {
      if operation.None? || operation.value == "" {
        out := Replied(Response(409, JsonError("Error: unknown operation: None")));
        return;
      }
      var name := operation.value;
      if Lookup(name).None? {
        out := Replied(Response(409, JsonError("Error: unknown operation: " + name)));
        return;
      }
      var n := Arity(Lookup(name).value);
      if |stack| < n {
        out := Replied(Response(409, JsonError(InsufficientText(name, n, |stack|))));
        return;
      }
      var args;
      stack, args := PopMany(stack, n);
      var r := Evaluate(name, args);
      if r.Failed? {
        stack := PushReversed(stack, args);
        RollbackRestores(old(stack), n);
        out := Replied(Response(Code(r), JsonError(ErrorText(r.error))));
      } else {
        history := history + [Record(Stack, name, args, r.number)];
        out := Replied(Response(200, JsonResult(Computed(r.number))));
      }
    }

    method Calculate(body: Body<int>) returns (out: Outcome<int>)
      modifies this
      ensures Transition(Snapshot(), out) == CalculateSpec(old(Snapshot()), body)
    {
      if body.Malformed? {
        out := Raised(body.detail);
        return;
      }
      if body.operation.None? {
        out := Raised(NoOperationDetail);
        return;
      }
      var name := body.operation.value;
      var args := ArgumentsOf(body.arguments);
      var r := Evaluate(name, args);
      if r.Failed? {
        out := Replied(Response(Code(r), JsonError(ErrorText(r.error))));
      } else {
        history := history + [Record(Independent, name, args, r.number)];
        out := Replied(Response(Code(r), JsonResult(Computed(r.number))));
      }
    }

    method Push(body: Body<int>) returns (out: Outcome<int>)
      modifies this
      ensures Transition(Snapshot(), out) == PushSpec(old(Snapshot()), body)
    {
      if body.Malformed? {
        out := Raised(body.detail);
        return;
      }
      stack := stack + ArgumentsOf(body.arguments);
      out := Replied(Response(200, JsonResult(Size(|stack|))));
    }

    method Remove(count: Option<IntText>) returns (out: Outcome<int>)
      modifies this
      ensures Transition(Snapshot(), out) == RemoveSpec(old(Snapshot()), count)
    {
      var c := CountOf(count);
      if c.Failure? {
        out := Raised(c.error);
        return;
      }
      if c.value > |stack| {
        out := Replied(Response(409, JsonError(RemoveRefusalText(c.value, |stack|))));
        return;
      }
      stack := DropTop(stack, if c.value < 0 then 0 else c.value);
      out := Replied(Response(200, JsonResult(Size(|stack|))));
    }

    /** `do_GET`, `do_POST`, `do_PUT` and `do_DELETE`. */
    method Dispatch(req: Request<int>) returns (out: Outcome<int>)
      modifies this
      ensures Transition(Snapshot(), out) == Step(old(Snapshot()), req)
    {
      var p := ParamsOf(req);
      match EndpointOf(req)
      case HealthCheck => out := Replied(Response(200, PlainText("OK")));
      case SizeQuery => out := Replied(Response(200, JsonResult(Size(|stack|))));
      case OperateCall => out := Operate(p.operation);
      case HistoryCall => out := Replied(Response(200, JsonResult(Records(Grouped(history, p.flavor)))));
      case CalculateCall => out := Calculate(req.body);
      case ArgumentsPush => out := Push(req.body);
      case ArgumentsRemoval => out := Remove(p.count);
      case NoEndpoint => out := Replied(NotFound());
    }
  }
}
