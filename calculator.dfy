/** The service of kaplat4/main.py: the shared stack, history, request counter and logger
    levels, the handler branches that read and change them, and the request wrapper that numbers
    each request and turns an escaped exception into a 500 reply. The pure functions below say
    what each handler does to the state; the class implements them step by step, as the source
    does, and its methods are proved to agree with them. */
module Calculator {
  import opened Wrappers
  import opened Text
  import opened Operations
  import opened Evaluator
  import opened StackOps
  import opened History
  import opened Loggers
  import opened Protocol

  /** The handler branch a request reaches. */
  datatype Endpoint =
    | HealthCheck | SizeQuery | OperateCall | HistoryCall | LevelQuery
    | CalculateCall | ArgumentsPush | LevelUpdate | ArgumentsRemoval | NoEndpoint

  /** The path tests of `_do_GET_impl`, `_do_POST_impl`, `_do_PUT_impl` and `_do_DELETE_impl`:
      GET and DELETE compare the parsed path, POST and the first PUT test compare the raw target,
      and PUT on logger levels only asks that the target start with "/logs/level". */
  function EndpointOf(req: Request<Arg>): (e: Endpoint)
    ensures e == CalculateCall ==> req.verb == Post && req.query.None?
    ensures e == ArgumentsPush ==> req.verb == Put && req.query.None?
  {
    match req.verb
    case Get =>
      if req.path == "/calculator/health" then HealthCheck
      else if req.path == "/calculator/stack/size" then SizeQuery
      else if req.path == "/calculator/stack/operate" then OperateCall
      else if req.path == "/calculator/history" then HistoryCall
      else if req.path == "/logs/level" then LevelQuery
      else NoEndpoint
    case Post =>
      if TargetIs(req, "/calculator/independent/calculate") then CalculateCall else NoEndpoint
    case Put =>
      if TargetIs(req, "/calculator/stack/arguments") then ArgumentsPush
      else if "/logs/level" <= req.path then LevelUpdate
      else NoEndpoint
    case Delete =>
      if req.path == "/calculator/stack/arguments" then ArgumentsRemoval else NoEndpoint
  }

  /** The module-level state the handlers share, except the request counter. */
  datatype State = State(stack: seq<Arg>, history: seq<Record<Arg>>, levels: map<string, Level>)

  /** A handler's effect: the state it leaves and what it does with the request. */
  datatype Transition = Transition(state: State, outcome: Outcome<Arg>)

  function Reply(st: State, status: int, payload: Payload<Arg>): Transition {
    Transition(st, Replied(Response(status, payload)))
  }

  /** Which service a handler function describes: the corrected one, or the source as written,
      whose `str()` raises `limitText` past the digit limit. */
  datatype Variant = Corrected | AsWritten(limitText: string)

  /** The source as written, on CPython's default digit limit. */
  const Written := AsWritten(DigitLimitText)

  /** GET /calculator/stack/operate (kaplat4/main.py:192-226). `variant` chooses between the
      source as written and the corrected service where the two part. When converting the
      popped entries raises an exception the evaluator does not catch, the source lets it out
      with the entries already popped; the corrected service pushes them back first. When the
      result has more digits than `str()` writes, the source has already popped the entries and
      recorded the result when its log line raises; the corrected service replies the result. */
  function OperateWith(st: State, operation: Option<string>, variant: Variant): Transition {
    if operation.None? || operation.value == "" || Lookup(operation.value).None? then
      Reply(st, 409, JsonError("Error: unknown operation: " + Show(operation)))
    else
      var name := operation.value;
      var n := Arity(Lookup(name).value);
      if |st.stack| < n then
        Reply(st, 409, JsonError(InsufficientText(name, n, |st.stack|)))
      else
        var args := PopOrder(st.stack, n);
        var popped := st.stack[..|st.stack| - n];
        match Perform(name, args)
        case Returned(v) =>
          var next := st.(stack := popped, history := st.history + [Record(Stack, name, args, v)]);
          if variant.AsWritten? && !Printable(v) then Transition(next, Raised(variant.limitText))
          else Reply(next, 200, JsonResult(Computed(v)))
        case Failed(e) => Reply(st, 409, JsonError(Message(e)))
        case Raises(d) => Transition(if variant.AsWritten? then st.(stack := popped) else st, Raised(d))
  }

  function OperateSpec(st: State, operation: Option<string>): Transition {
    OperateWith(st, operation, Corrected)
  }

  /** The corrected operate once a registered operation has found enough entries, by what the
      evaluator makes of the popped ones. */
  lemma OperatePopped(st: State, name: string, args: seq<Arg>)
    requires name != "" && Lookup(name).Some? && Arity(Lookup(name).value) <= |st.stack|
    requires args == PopOrder(st.stack, Arity(Lookup(name).value))
    ensures Perform(name, args).Failed? ==>
              OperateSpec(st, Some(name)) == Reply(st, 409, JsonError(Message(Perform(name, args).error)))
    ensures Perform(name, args).Raises? ==>
              OperateSpec(st, Some(name)) == Transition(st, Raised(Perform(name, args).detail))
    ensures Perform(name, args).Returned? ==>
              OperateSpec(st, Some(name))
              == Reply(st.(stack := st.stack[..|st.stack| - |args|],
                           history := st.history + [Record(Stack, name, args, Perform(name, args).number)]),
                       200, JsonResult(Computed(Perform(name, args).number)))
  {
  }

  /** The operate handler as kaplat4/main.py:206-219 writes it: only errors the evaluator
      returns are rolled back, and a result `str()` refuses raises after it was recorded. */
  function OperateAsWritten(st: State, operation: Option<string>): Transition {
    OperateWith(st, operation, Written)
  }

  /** As written, a stack entry `int()` rejects with TypeError (a JSON null, say) is popped and
      lost: the exception escapes to the 500 wrapper before the rollback loop runs. The corrected
      handler leaves the stack as it was. */
  lemma AsWrittenLosesEntries(st: State, d: string)
    requires st.stack == [NonScalar(d)]
    ensures OperateAsWritten(st, Some("abs")).outcome == Raised(d)
    ensures OperateAsWritten(st, Some("abs")).state.stack == []
    ensures OperateSpec(st, Some("abs")).outcome == Raised(d)
    ensures OperateSpec(st, Some("abs")).state.stack == st.stack
  {
    KeyLowercase(Abs);
    LookupKey(Abs, "abs");
    assert PopOrder(st.stack, 1) == [NonScalar(d)];
  }

  /** As written, a result with more digits than `str()` writes (10 ** k for k >= 4300, from
      pushing k and then 10 and operating with pow) is recorded, its operands are popped, and
      the reply is the 500 of the log line that raised; from then on the unfiltered history
      cannot be written either. The corrected handler replies the result. */
  lemma AsWrittenDigitLimit(st: State, k: int)
    requires st.stack == [Num(k), Num(10)] && k >= MaxStrDigits
    ensures var t := OperateAsWritten(st, Some("pow"));
            && t.outcome == Raised(DigitLimitText)
            && t.state.stack == []
            && |t.state.history| == |st.history| + 1
            && HistoryWith(t.state, None, Written).outcome == Raised(DigitLimitText)
    ensures OperateSpec(st, Some("pow")).outcome == Replied(Response(200, JsonResult(Computed(Whole(Power(10, k))))))
  {
    KeyLowercase(Pow);
    LookupKey(Pow, "pow");
    PerformPow("pow", 10, k);
    assert PopOrder(st.stack, 2) == [Num(10), Num(k)];
    DigitsOfPowerOfTen(k);
    var t := OperateAsWritten(st, Some("pow"));
    assert t.state.history[|st.history|].result == Whole(Power(10, k));
  }

  /** Every operate call that does not reply 200 leaves the stack element for element as it was,
      and the history too. */
  lemma OperateFailureRestores(st: State, operation: Option<string>)
    ensures var t := OperateSpec(st, operation);
            !(t.outcome.Replied? && t.outcome.response.status == 200) ==> t.state == st
  {
  }

  /** A successful operate takes exactly `arity` entries off the top, does not push the result,
      hands the evaluator the former top first, and records one STACK entry with those arguments. */
  lemma OperateSuccess(st: State, name: string)
    requires OperateSpec(st, Some(name)).outcome.Replied?
    requires OperateSpec(st, Some(name)).outcome.response.status == 200
    ensures Lookup(name).Some?
    ensures var n := Arity(Lookup(name).value);
            var t := OperateSpec(st, Some(name));
            && n <= |st.stack|
            && t.state.stack == st.stack[..|st.stack| - n]
            && t.state.levels == st.levels
            && Perform(name, PopOrder(st.stack, n)).Returned?
            && t.state.history == st.history + [Record(Stack, name, PopOrder(st.stack, n),
                                                       Perform(name, PopOrder(st.stack, n)).number)]
            && t.outcome.response.payload == JsonResult(Computed(Perform(name, PopOrder(st.stack, n)).number))
  {
  }

  /** The operand order: with `x` pushed before `y`, divide computes `y // x`; so pushing [10, 2]
      and dividing gives 2 // 10 = 0 and empties those two entries. */
  lemma OperateDivideOrder(st: State, name: string, rest: seq<Arg>, x: int, y: int)
    requires Lower(name) == "divide"
    requires st.stack == rest + [Num(x), Num(y)]
    requires x != 0
    ensures OperateSpec(st, Some(name)).outcome == Replied(Response(200, JsonResult(Computed(Whole(FloorDiv(y, x))))))
    ensures OperateSpec(st, Some(name)).state.stack == rest
  {
    LookupKey(Divide, name);
    PerformDivide(name, y, x);
    assert PopOrder(st.stack, 2) == [Num(y), Num(x)];
    assert st.stack[..|st.stack| - 2] == rest;
  }

  /** GET /calculator/history (kaplat4/main.py:228-252). As written, `json.dumps` raises when the
      view holds a result with more digits than `str()` writes. */
  function HistoryWith(st: State, flavor: Option<string>, variant: Variant): Transition {
    var view := Chronological(st.history, flavor);
    if variant.AsWritten? && exists i :: 0 <= i < |view| && !Printable(view[i].result) then
      Transition(st, Raised(variant.limitText))
    else Reply(st, 200, JsonResult(Records(view)))
  }

  function HistorySpec(st: State, flavor: Option<string>): Transition {
    HistoryWith(st, flavor, Corrected)
  }

  /** GET /logs/level (kaplat4/main.py:254-264). */
  function GetLevelSpec(st: State, name: Option<string>): Transition {
    if name.Some? && name.value in st.levels then Reply(st, 200, PlainText(LevelName(st.levels[name.value])))
    else Reply(st, 404, PlainText(NotFoundText(name)))
  }

  /** POST /calculator/independent/calculate (kaplat4/main.py:269-296). As written, a result with
      more digits than `str()` writes is recorded before the log line raises. */
  function CalculateWith(st: State, body: Body<Arg>, variant: Variant): Transition {
    match body
    case Malformed(d) => Transition(st, Raised(d))
    case Object(None, _) => Transition(st, Raised(NoOperationDetail))
    case Object(Some(name), arguments) =>
      var args := ArgumentsOf(arguments);
      match Perform(name, args)
      case Returned(v) =>
        var next := st.(history := st.history + [Record(Independent, name, args, v)]);
        if variant.AsWritten? && !Printable(v) then Transition(next, Raised(variant.limitText))
        else Reply(next, 200, JsonResult(Computed(v)))
      case Failed(e) => Reply(st, 409, JsonError(Message(e)))
      case Raises(d) => Transition(st, Raised(d))
  }

  function CalculateSpec(st: State, body: Body<Arg>): Transition {
    CalculateWith(st, body, Corrected)
  }

  /** An independent calculation adds a record exactly when the evaluator returns a value, and
      then exactly one INDEPENDENT record holding the arguments as given. */
  lemma CalculateRecordsOnSuccess(st: State, name: string, arguments: Option<seq<Arg>>)
    ensures var t := CalculateSpec(st, Object(Some(name), arguments));
            var r := Perform(name, ArgumentsOf(arguments));
            && t.state.stack == st.stack
            && (r.Returned? ==> t.state.history == st.history + [Record(Independent, name, ArgumentsOf(arguments), r.number)])
            && (!r.Returned? ==> t.state.history == st.history)
            && (r.Failed? ==> t.outcome == Replied(Response(Code(r), JsonError(Message(r.error)))))
  {
  }

  /** PUT /calculator/stack/arguments (kaplat4/main.py:299-316). */
  function PushSpec(st: State, body: Body<Arg>): Transition {
    var r := PushOnto(st.stack, body);
    Transition(st.(stack := r.stack), r.outcome)
  }

  /** PUT /logs/level (kaplat4/main.py:318-337): the name is checked before the level. */
  function SetLevelSpec(st: State, name: Option<string>, level: Option<string>): Transition {
    if name.None? || name.value !in st.levels then Reply(st, 404, PlainText(NotFoundText(name)))
    else match ParseLevel(level)
      case None => Reply(st, 400, PlainText(InvalidLevelText))
      case Some(l) => Reply(st.(levels := st.levels[name.value := l]), 200, PlainText(LevelName(l)))
  }

  /** A level that was set is the level read back, for every registered name and valid level. */
  lemma SetThenGet(st: State, name: string, l: Level)
    requires name in st.levels
    ensures var t := SetLevelSpec(st, Some(name), Some(LevelName(l)));
            && t.outcome == Replied(Response(200, PlainText(LevelName(l))))
            && GetLevelSpec(t.state, Some(name)).outcome == Replied(Response(200, PlainText(LevelName(l))))
  {
    ParseLevelName(l);
  }

  /** An invalid level changes nothing and is refused with 400, unless the name is unknown. */
  lemma SetInvalidLevel(st: State, name: Option<string>, level: Option<string>)
    requires ParseLevel(level).None?
    ensures SetLevelSpec(st, name, level).state == st
    ensures name.Some? && name.value in st.levels
            ==> SetLevelSpec(st, name, level).outcome == Replied(Response(400, PlainText(InvalidLevelText)))
    ensures !(name.Some? && name.value in st.levels)
            ==> SetLevelSpec(st, name, level).outcome == Replied(Response(404, PlainText(NotFoundText(name))))
  {
  }

  /** DELETE /calculator/stack/arguments (kaplat4/main.py:342-363). */
  function RemoveSpec(st: State, count: Option<IntText>): Transition {
    var r := RemoveFrom(st.stack, count);
    Transition(st.(stack := r.stack), r.outcome)
  }

  /** Remove is all or nothing: too large a count changes nothing; otherwise exactly the top
      `count` entries go (none for a count of 0 or less). */
  lemma RemoveAllOrNothing(st: State, c: int)
    ensures var t := RemoveSpec(st, Some(Integer(c)));
            && (c > |st.stack| ==> t.state == st && t.outcome.response.status == 409)
            && (0 <= c <= |st.stack| ==> t.state.stack == st.stack[..|st.stack| - c]
                                          && t.outcome == Replied(Response(200, JsonResult(Size(|st.stack| - c)))))
            && (c < 0 ==> t.state == st && t.outcome.response.status == 200)
  {
  }

  /** The whole dispatch of one request to its handler branch, as written or corrected. */
  function StepWith(st: State, req: Request<Arg>, variant: Variant): Transition {
    var p := ParamsOf(req);
    match EndpointOf(req)
    case HealthCheck => Reply(st, 200, PlainText("OK"))
    case SizeQuery => Reply(st, 200, JsonResult(Size(|st.stack|)))
    case OperateCall => OperateWith(st, p.operation, variant)
    case HistoryCall => HistoryWith(st, p.flavor, variant)
    case LevelQuery => GetLevelSpec(st, p.loggerName)
    case CalculateCall => CalculateWith(st, req.body, variant)
    case ArgumentsPush => PushSpec(st, req.body)
    case LevelUpdate => SetLevelSpec(st, p.loggerName, p.loggerLevel)
    case ArgumentsRemoval => RemoveSpec(st, p.count)
    case NoEndpoint => Transition(st, Replied(NotFound()))
  }

  /** The corrected service, which the class implements. */
  function Step(st: State, req: Request<Arg>): Transition {
    StepWith(st, req, Corrected)
  }

  /** What a request to the corrected service keeps: the history grows by at most one record
      and only on a 200 reply, an escaped exception changes nothing, the set of loggers never
      changes, and no handler itself replies 500. */
  predicate Keeps(st: State, t: Transition) {
    && |st.history| <= |t.state.history| <= |st.history| + 1
    && t.state.history[..|st.history|] == st.history
    && (|t.state.history| > |st.history| ==> t.outcome.Replied? && t.outcome.response.status == 200)
    && (t.outcome.Raised? ==> t.state == st)
    && t.state.levels.Keys == st.levels.Keys
    && (t.outcome.Replied? ==> t.outcome.response.status != 500)
  }

  lemma OperateKeeps(st: State, operation: Option<string>)
    ensures Keeps(st, OperateSpec(st, operation))
  {
    var t := OperateSpec(st, operation);
    assert t.state.history == st.history || t.state.history[..|st.history|] == st.history;
  }

  lemma CalculateKeeps(st: State, body: Body<Arg>)
    ensures Keeps(st, CalculateSpec(st, body))
  {
    var t := CalculateSpec(st, body);
    assert t.state.history == st.history || t.state.history[..|st.history|] == st.history;
  }

  /** Every request to the corrected service keeps `Keeps`. */
  lemma StepInvariants(st: State, req: Request<Arg>)
    ensures Keeps(st, Step(st, req))
  {
    var p := ParamsOf(req);
    match EndpointOf(req)
    case OperateCall => OperateKeeps(st, p.operation);
    case CalculateCall => CalculateKeeps(st, req.body);
    case LevelUpdate => LevelUpdateKeepsLoggers(st, p.loggerName, p.loggerLevel);
    case HealthCheck =>
    case SizeQuery =>
    case HistoryCall =>
    case LevelQuery =>
    case ArgumentsPush =>
    case ArgumentsRemoval =>
    case NoEndpoint =>
  }

  /** Setting a level changes no logger's registration. */
  lemma LevelUpdateKeepsLoggers(st: State, name: Option<string>, level: Option<string>)
    ensures var t := SetLevelSpec(st, name, level);
            t.state.levels.Keys == st.levels.Keys && t.state.stack == st.stack && t.state.history == st.history
  {
  }

  /** What a request to the service as written keeps: the history grows by at most one record,
      and only on a 200 reply or when `str()` refused the new record's result; an escaped
      exception leaves the logger levels alone and the stack a prefix of what it was (operate's
      popped entries are lost); the set of loggers never changes, and no handler replies 500. */
  predicate AsWrittenKeeps(st: State, t: Transition) {
    && |st.history| <= |t.state.history| <= |st.history| + 1
    && t.state.history[..|st.history|] == st.history
    && (|t.state.history| > |st.history| ==>
          (t.outcome.Replied? && t.outcome.response.status == 200) || t.outcome == Raised(DigitLimitText))
    && (t.outcome.Raised? ==> t.state.levels == st.levels && t.state.stack <= st.stack)
    && t.state.levels.Keys == st.levels.Keys
    && (t.outcome.Replied? ==> t.outcome.response.status != 500)
  }

  lemma OperateAsWrittenKeeps(st: State, operation: Option<string>)
    ensures AsWrittenKeeps(st, OperateAsWritten(st, operation))
  {
    var t := OperateAsWritten(st, operation);
    if operation.Some? && operation.value != "" && Lookup(operation.value).Some?
       && Arity(Lookup(operation.value).value) <= |st.stack| {
      var n := Arity(Lookup(operation.value).value);
      assert st.stack[..|st.stack| - n] <= st.stack;
      assert t.state.history == st.history || t.state.history[..|st.history|] == st.history;
    }
  }

  lemma CalculateAsWrittenKeeps(st: State, body: Body<Arg>)
    ensures AsWrittenKeeps(st, CalculateWith(st, body, Written))
  {
    var t := CalculateWith(st, body, Written);
    assert t.state.history == st.history || t.state.history[..|st.history|] == st.history;
  }

  /** Every request to the service as written keeps `AsWrittenKeeps`. */
  lemma StepAsWrittenInvariants(st: State, req: Request<Arg>)
    ensures AsWrittenKeeps(st, StepWith(st, req, Written))
  {
    var p := ParamsOf(req);
    match EndpointOf(req)
    case OperateCall => OperateAsWrittenKeeps(st, p.operation);
    case CalculateCall => CalculateAsWrittenKeeps(st, req.body);
    case LevelUpdate => LevelUpdateKeepsLoggers(st, p.loggerName, p.loggerLevel);
    case HealthCheck =>
    case SizeQuery =>
    case HistoryCall =>
    case LevelQuery =>
    case ArgumentsPush =>
    case ArgumentsRemoval =>
    case NoEndpoint =>
  }

  const UnexpectedPrefix := "Server encountered an unexpected error ! message: "

  /** The `except` of `_handle_request` (kaplat4/main.py:145-149). Its 500 is the reply only when
      the handler raised before sending its status line, as on every path of the corrected `Step`;
      a handler that raises after `_set_json()` has already sent 200, and the 500 lands in the body. */
  function Wrap(out: Outcome<Arg>): Response<Arg> {
    match out
    case Replied(r) => r
    case Raised(d) => Response(500, JsonError(UnexpectedPrefix + d))
  }

  /** A reply is 500 exactly when the handler raised, and then it carries the exception's text. */
  lemma WrapFiveHundred(st: State, req: Request<Arg>)
    ensures var t := Step(st, req);
            (Wrap(t.outcome).status == 500 <==> t.outcome.Raised?)
            && (t.outcome.Raised? ==> Wrap(t.outcome).payload == JsonError(UnexpectedPrefix + t.outcome.detail))
  {
    StepInvariants(st, req);
  }

  /** The service object owning what kaplat4/main.py keeps in module globals. */
  class Service {
    var stack: seq<Arg>
    var history: seq<Record<Arg>>
    var counter: nat
    var levels: map<string, Level>

    ghost function Snapshot(): State
      reads this
    {
      State(stack, history, levels)
    }

    ghost predicate Valid()
      reads this
    {
      levels.Keys == LoggerNames
    }

    constructor ()
      ensures Valid()
      ensures Snapshot() == State([], [], InitialLevels()) && counter == 0
    {
      stack, history, counter, levels := [], [], 0, InitialLevels();
    }

    method StackSize() returns (out: Outcome<Arg>)
      ensures out == Replied(Response(200, JsonResult(Size(|stack|))))
    {
      out := Replied(Response(200, JsonResult(Size(|stack|))));
    }

    method Operate(operation: Option<string>) returns (out: Outcome<Arg>)
      modifies this`stack, this`history
      ensures Transition(Snapshot(), out) == OperateSpec(old(Snapshot()), operation)
    {
      if operation.None? || operation.value == "" || Lookup(operation.value).None? {
        out := Replied(Response(409, JsonError("Error: unknown operation: " + Show(operation))));
        return;
      }
      var name := operation.value;
      var n := Arity(Lookup(name).value);
      if |stack| < n {
        out := Replied(Response(409, JsonError(InsufficientText(name, n, |stack|))));
        return;
      }
      out := PopAndEvaluate(name);
    }

    /** The part of operate past the two 409 guards: pop, evaluate, then record or roll back. */
    method PopAndEvaluate(name: string) returns (out: Outcome<Arg>)
      requires name != "" && Lookup(name).Some? && Arity(Lookup(name).value) <= |stack|
      modifies this`stack, this`history
      ensures Transition(Snapshot(), out) == OperateSpec(old(Snapshot()), Some(name))
    {
      ghost var st := Snapshot();
      var n := Arity(Lookup(name).value);
      var args;
      stack, args := PopMany(stack, n);
      var r := Perform(name, args);
      OperatePopped(st, name, args);
      if !r.Returned? {
        stack := PushReversed(stack, args);
        RollbackRestores(st.stack, n);
        out := if r.Failed? then Replied(Response(409, JsonError(Message(r.error)))) else Raised(r.detail);
        assert Snapshot() == st;
        return;
      }
      history := history + [Record(Stack, name, args, r.number)];
      out := Replied(Response(200, JsonResult(Computed(r.number))));
      assert Snapshot() == st.(stack := st.stack[..|st.stack| - n], history := st.history + [Record(Stack, name, args, r.number)]);
    }

    method QueryHistory(flavor: Option<string>) returns (out: Outcome<Arg>)
      ensures Transition(Snapshot(), out) == HistorySpec(Snapshot(), flavor)
    {
      var filtered := match ParseFlavor(flavor)
        case Some(f) => OfFlavor(history, f)
        case None => history;
      out := Replied(Response(200, JsonResult(Records(filtered))));
    }

    /** Every logger the service names is registered, so reading its level never fails. */
    method GetLevel(name: Option<string>) returns (out: Outcome<Arg>)
      requires Valid()
      ensures Transition(Snapshot(), out) == GetLevelSpec(Snapshot(), name)
      ensures name.Some? && name.value in LoggerNames ==> out.Replied? && out.response.status == 200
    {
      if name.None? || name.value !in levels {
        out := Replied(Response(404, PlainText(NotFoundText(name))));
        return;
      }
      out := Replied(Response(200, PlainText(LevelName(levels[name.value]))));
    }

    method Calculate(body: Body<Arg>) returns (out: Outcome<Arg>)
      modifies this`history
      ensures Transition(Snapshot(), out) == CalculateSpec(old(Snapshot()), body)
    {
      if body.Malformed? {
        out := Raised(body.detail);
        return;
      }
      if body.operation.None? {
        out := Raised(NoOperationDetail);
        return;
      }
      var name := body.operation.value;
      var args := ArgumentsOf(body.arguments);
      var r := Perform(name, args);
      if r.Raises? {
        out := Raised(r.detail);
      } else if r.Failed? {
        out := Replied(Response(Code(r), JsonError(Message(r.error))));
      } else {
        history := history + [Record(Independent, name, args, r.number)];
        out := Replied(Response(200, JsonResult(Computed(r.number))));
      }
    }

    method Push(body: Body<Arg>) returns (out: Outcome<Arg>)
      modifies this`stack
      ensures Transition(Snapshot(), out) == PushSpec(old(Snapshot()), body)
    {
      if body.Malformed? {
        out := Raised(body.detail);
        return;
      }
      stack := stack + ArgumentsOf(body.arguments);
      out := Replied(Response(200, JsonResult(Size(|stack|))));
    }

    method SetLevel(name: Option<string>, level: Option<string>) returns (out: Outcome<Arg>)
      modifies this`levels
      ensures Transition(Snapshot(), out) == SetLevelSpec(old(Snapshot()), name, level)
    {
      if name.None? || name.value !in levels {
        out := Replied(Response(404, PlainText(NotFoundText(name))));
        return;
      }
      var l := ParseLevel(level);
      if l.None? {
        out := Replied(Response(400, PlainText(InvalidLevelText)));
        return;
      }
      levels := levels[name.value := l.value];
      out := Replied(Response(200, PlainText(LevelName(l.value))));
    }

    method Remove(count: Option<IntText>) returns (out: Outcome<Arg>)
      modifies this`stack
      ensures Transition(Snapshot(), out) == RemoveSpec(old(Snapshot()), count)
    {
      var c := CountOf(count);
      if c.Failure? {
        out := Raised(c.error);
        return;
      }
      if c.value > |stack| {
        out := Replied(Response(409, JsonError(RemoveRefusalText(c.value, |stack|))));
        return;
      }
      stack := DropTop(stack, if c.value < 0 then 0 else c.value);
      out := Replied(Response(200, JsonResult(Size(|stack|))));
    }

    method Dispatch(req: Request<Arg>) returns (out: Outcome<Arg>)
      requires Valid()
      modifies this`stack, this`history, this`levels
      ensures Valid()
      ensures Transition(Snapshot(), out) == Step(old(Snapshot()), req)
    {
      var p := ParamsOf(req);
      match EndpointOf(req)
      case HealthCheck => out := Replied(Response(200, PlainText("OK")));
      case SizeQuery => out := StackSize();
      case OperateCall => out := Operate(p.operation);
      case HistoryCall => out := QueryHistory(p.flavor);
      case LevelQuery => out := GetLevel(p.loggerName);
      case CalculateCall => out := Calculate(req.body);
      case ArgumentsPush => out := Push(req.body);
      case LevelUpdate => out := SetLevel(p.loggerName, p.loggerLevel);
      case ArgumentsRemoval => out := Remove(p.count);
      case NoEndpoint => out := Replied(NotFound());
      StepInvariants(old(Snapshot()), req);
    }

    /** `_handle_request`: count the request first, then dispatch, and turn an escaped
        exception into the 500 reply. Returns the request's number and its reply. */
    method HandleRequest(req: Request<Arg>) returns (id: nat, resp: Response<Arg>)
      requires Valid()
      modifies this
      ensures Valid()
      ensures counter == old(counter) + 1 && id == counter
      ensures Snapshot() == Step(old(Snapshot()), req).state
      ensures resp == Wrap(Step(old(Snapshot()), req).outcome)
    {
      counter := counter + 1;
      id := counter;
      var out := Dispatch(req);
      resp := Wrap(out);
    }
  }
}
