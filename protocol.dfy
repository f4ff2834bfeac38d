/** The transport-agnostic shapes both HTTP handlers work with once the request is parsed:
    the verb, the path, the first value of each query parameter and the decoded JSON body in;
    a status code with a JSON or plain-text payload (or an exception) out. Also the fixed texts
    the two handler files share. */
module Protocol {
  import opened Wrappers
  import opened Text
  import opened Operations
  import opened History

  datatype Verb = Get | Post | Put | Delete

  /** A query value that the handler passes to `int()`. */
  datatype IntText = Integer(n: int) | NotInteger(text: string)

  /** The first value of each query parameter a handler reads (`qs.get(key, [None])[0]`);
      `None` when the parameter is absent or blank. */
  datatype Params = Params(
    operation: Option<string>,
    flavor: Option<string>,
    loggerName: Option<string>,
    loggerLevel: Option<string>,
    count: Option<IntText>)

  const NoParams := Params(None, None, None, None, None)

  /** A request body after `json.loads` and `data.get`: an object with its "operation" and
      "arguments" entries, or a body on which decoding raised (the exception's text). */
  datatype Body<A> = Malformed(detail: string) | Object(operation: Option<string>, arguments: Option<seq<A>>)

  /** `path` is `urlparse(target).path`; `query` is `None` when the target has no '?' at all,
      so that, for an origin-form target without `;params` or a `#fragment`, `target == p`
      holds exactly when `path == p && query == None`. */
  datatype Request<A> = Request(verb: Verb, path: string, query: Option<Params>, body: Body<A>)

  function ParamsOf<A>(req: Request<A>): Params {
    req.query.GetOr(NoParams)
  }

  /** `self.path == p`: the raw target, query string included, is exactly `p`. */
  predicate TargetIs<A>(req: Request<A>, p: string) {
    req.path == p && req.query.None?
  }

  /** `data.get("arguments", [])`. */
  function ArgumentsOf<A>(arguments: Option<seq<A>>): seq<A> {
    arguments.GetOr([])
  }

  /** The value under "result" in a JSON reply. */
  datatype ResultValue<A> = Size(n: int) | Computed(number: Number) | Records(records: seq<Record<A>>)

  datatype Payload<A> =
    | JsonResult(result: ResultValue<A>)  // {"result": ...}
    | JsonError(message: string)          // {"errorMessage": ...}
    | PlainText(text: string)

  datatype Response<A> = Response(status: int, payload: Payload<A>)

  /** What a handler does: send a response, or let an exception out of it. */
  datatype Outcome<A> = Replied(response: Response<A>) | Raised(detail: string)

  function NotFound<A>(): Response<A> {
    Response(404, JsonError("Not Found"))
  }

  /** `int(qs.get("count", ["0"])[0])`: 0 when absent, the ValueError's text when not an integer. */
  function CountOf(c: Option<IntText>): (r: Result<int, string>)
    ensures c.None? ==> r == Success(0)
    ensures r.Failure? <==> c.Some? && c.value.NotInteger?
  {
    match c
    case None => Success(0)
    case Some(Integer(n)) => Success(n)
    case Some(NotInteger(t)) => Failure("invalid literal for int() with base 10: '" + t + "'")
  }

  /** The AttributeError `None.lower()` raises when a calculate body has no "operation". */
  const NoOperationDetail := "'NoneType' object has no attribute 'lower'"

  /** The refusal when the stack holds fewer entries than the operation takes. */
  function InsufficientText(name: string, arity: nat, size: nat): string {
    "Error: cannot implement operation " + name + ". It requires " + NatToString(arity)
    + " arguments and the stack has only " + NatToString(size) + " arguments"
  }

  /** The refusal when more entries are to be removed than the stack holds. */
  function RemoveRefusalText(count: int, size: nat): string {
    "Error: cannot remove " + IntToString(count) + " from the stack. It has only "
    + NatToString(size) + " arguments"
  }

  /** Whether `str()` and `json.dumps` can write a result: floats always, ints up to the digit limit. */
  predicate Printable(n: Number) {
    n.FloatValue? || !ExceedsStrDigits(n.value)
  }

  /** What a handler does to the stack alone: the stack it leaves and its outcome. */
  datatype StackStep<A> = StackStep(stack: seq<A>, outcome: Outcome<A>)

  /** PUT /calculator/stack/arguments in both versions: `stack.extend(args)`, then the new size. */
  function PushOnto<A>(stack: seq<A>, body: Body<A>): StackStep<A> {
    match body
    case Malformed(d) => StackStep(stack, Raised(d))
    case Object(_, arguments) =>
      var s := stack + ArgumentsOf(arguments);
      StackStep(s, Replied(Response(200, JsonResult(Size(|s|)))))
  }

  /** DELETE /calculator/stack/arguments in both versions: refuse a count above the size, else pop
      `count` times (no time for a count below 1) and reply the new size. */
  function RemoveFrom<A>(stack: seq<A>, count: Option<IntText>): StackStep<A> {
    match CountOf(count)
    case Failure(d) => StackStep(stack, Raised(d))
    case Success(c) =>
      if c > |stack| then StackStep(stack, Replied(Response(409, JsonError(RemoveRefusalText(c, |stack|)))))
      else
        var s := stack[..|stack| - (if c < 0 then 0 else c)];
        StackStep(s, Replied(Response(200, JsonResult(Size(|s|)))))
  }
}
