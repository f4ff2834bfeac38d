/** `perform_operation` of kaplat4/main.py:26-54: look the name up, check the argument
    count, convert the arguments with `int()`, run the domain checks, apply the function. */
module Evaluator {
  import opened Wrappers
  import opened Text
  import opened Operations

  /** A calculator argument as `int()` sees it. */
  datatype Arg =
    | Num(value: int)            // a JSON integer: `int()` returns it
    | NonNumeric(text: string)   // a JSON string such as "abc": `int()` raises ValueError
    | NonScalar(detail: string)  // a JSON null, array or object: `int()` raises TypeError with this message

  /** The errors `perform_operation` returns (its second component). */
  datatype EvalError =
    | UnknownOperation(name: string)
    | NotEnoughArguments(name: string)
    | TooManyArguments(name: string)
    | NotNumeric
    | DivisionByZero
    | NegativeFactorial
    | RuntimeFailure(name: string, detail: string)  // an exception the function itself raised

  /** The error text kaplat4/main.py returns for each error. */
  function Message(e: EvalError): string {
    match e
    case UnknownOperation(name) => "Error: unknown operation: " + name
    case NotEnoughArguments(name) => "Error: Not enough arguments to perform the operation " + name
    case TooManyArguments(name) => "Error: Too many arguments to perform the operation " + name
    case NotNumeric => "Error: Arguments must be numeric (integers)"
    case DivisionByZero => "Error while performing operation Divide: division by 0"
    case NegativeFactorial => "Error while performing operation Factorial: not supported for the negative number"
    case RuntimeFailure(name, detail) => "Error while performing operation " + name + ": " + detail
  }

  /** The outcome of `[int(arg) for arg in args]`: all converted, a ValueError (caught by the
      evaluator), or a TypeError (not caught), whichever the left-to-right scan meets first. */
  datatype Conversion = Converted(values: seq<int>) | ValueErrorRaised | TypeErrorRaised(detail: string)

  predicate AllNumeric(args: seq<Arg>) {
    forall i :: 0 <= i < |args| ==> args[i].Num?
  }

  function Convert(args: seq<Arg>): (c: Conversion)
    ensures c.Converted? <==> AllNumeric(args)
    ensures c.Converted? ==> |c.values| == |args| && forall i :: 0 <= i < |args| ==> args[i] == Num(c.values[i])
    ensures c.ValueErrorRaised? ==> exists i :: 0 <= i < |args| && args[i].NonNumeric?
    ensures c.TypeErrorRaised? ==> NonScalar(c.detail) in args
  {
    if args == [] then Converted([])
    else match args[0]
      case Num(v) =>
        (match Convert(args[1..])
         case Converted(vs) => Converted([v] + vs)
         case other => other)
      case NonNumeric(_) => ValueErrorRaised
      case NonScalar(d) => TypeErrorRaised(d)
  }

  /** The scan stops at the first argument that is not an integer: what follows it does not matter. */
  lemma {:induction false} ConvertStopsAtFirst(front: seq<int>, bad: Arg, rest: seq<Arg>)
    requires !bad.Num?
    ensures var args := seq(|front|, i requires 0 <= i < |front| => Num(front[i])) + [bad] + rest;
            Convert(args) == if bad.NonNumeric? then ValueErrorRaised else TypeErrorRaised(bad.detail)
  {
    var nums := seq(|front|, i requires 0 <= i < |front| => Num(front[i]));
    if front != [] {
      var tail := seq(|front| - 1, i requires 0 <= i < |front| - 1 => Num(front[1..][i]));
      ConvertStopsAtFirst(front[1..], bad, rest);
      assert (nums + [bad] + rest)[1..] == tail + [bad] + rest;
    }
  }

  /** What `perform_operation` does with a request: return a value, return an error
      (its `(None, msg, 409)`), or let an exception out to its caller. */
  datatype Evaluation = Returned(number: Number) | Failed(error: EvalError) | Raises(detail: string)

  /** The domain checks of kaplat4/main.py:45-48 and the failures the functions themselves
      raise: a factorial argument above a C `long`, and a negative power whose operands do not
      fit a float or whose base is 0. */
  predicate InDomain(op: Op, a: seq<int>)
    requires |a| == Arity(op)
  {
    && !(op == Divide && a[1] == 0)
    && !(op == Fact && (a[0] < 0 || a[0] > LongMax))
    && !(op == Pow && a[1] < 0 && (a[0] == 0 || !FitsFloat(a[0]) || !FitsFloat(a[1])))
  }

  /** The domain checks, then the function. Shared by both evaluators, which differ only in what
      comes before it and in how they word a `RuntimeFailure`. */
  function Apply(op: Op, name: string, a: seq<int>): (r: Evaluation)
    requires |a| == Arity(op)
    ensures !r.Raises?
    ensures r.Returned? <==> InDomain(op, a)
    ensures op == Divide && a[1] == 0 ==> r == Failed(DivisionByZero)
    ensures op == Fact && a[0] < 0 ==> r == Failed(NegativeFactorial)
    ensures op == Fact && a[0] > LongMax ==> r == Failed(RuntimeFailure(name, FactorialTooLarge))
    ensures r.Failed? && r.error.RuntimeFailure? ==>
              r.error.name == name && r.error.detail in {ZeroToNegativePower, IntTooLargeForFloat, FactorialTooLarge}
  {
    if op == Divide && a[1] == 0 then Failed(DivisionByZero)
    else if op == Fact && a[0] < 0 then Failed(NegativeFactorial)
    else match Compute(op, a)
      case Success(v) => Returned(v)
      case Failure(d) => Failed(RuntimeFailure(name, d))
  }

  /** The independent statement of when `perform_operation` succeeds: the name is registered, the
      count matches, every argument is an integer and the values are in the operation's domain. */
  predicate Accepts(name: string, args: seq<Arg>) {
    && Lookup(name).Some?
    && |args| == Arity(Lookup(name).value)
    && AllNumeric(args)
    && InDomain(Lookup(name).value, seq(|args|, i requires 0 <= i < |args| && args[i].Num? => args[i].value))
  }

  function Perform(name: string, args: seq<Arg>): (r: Evaluation)
    ensures r.Returned? <==> Accepts(name, args)
    ensures r.Raises? ==> NonScalar(r.detail) in args
    ensures r.Failed? && Lookup(name).None? <==> r == Failed(UnknownOperation(name))
  {
    match Lookup(name)
    case None => Failed(UnknownOperation(name))
    case Some(op) =>
      if |args| < Arity(op) then Failed(NotEnoughArguments(name))
      else if |args| > Arity(op) then Failed(TooManyArguments(name))
      else match Convert(args)
        case ValueErrorRaised => Failed(NotNumeric)
        case TypeErrorRaised(d) => Raises(d)
        case Converted(a) =>
          assert a == seq(|args|, i requires 0 <= i < |args| && args[i].Num? => args[i].value);
          Apply(op, name, a)
  }

  /** The HTTP code `perform_operation` pairs with its answer: 200 for a value, 409 for every error. */
  function Code(r: Evaluation): int
    requires !r.Raises?
  {
    if r.Returned? then 200 else 409
  }

  /** An unknown name is reported first, whatever the arguments are. */
  lemma UnknownComesFirst(name: string, args: seq<Arg>)
    requires Lookup(name).None?
    ensures Perform(name, args) == Failed(UnknownOperation(name))
  {
  }

  /** A wrong argument count is reported before any argument is converted. */
  lemma ArityBeforeConversion(name: string, op: Op, args: seq<Arg>)
    requires Lower(name) == Key(op)
    ensures |args| < Arity(op) ==> Perform(name, args) == Failed(NotEnoughArguments(name))
    ensures |args| > Arity(op) ==> Perform(name, args) == Failed(TooManyArguments(name))
  {
    LookupKey(op, name);
  }

  /** Integer conversion comes before the domain checks: once the name and the count are right,
      a ValueError from `int()` gives the numeric error, and any argument that is not an integer
      gives that error or lets the TypeError out, never a domain error. */
  lemma ConversionBeforeDomain(name: string, args: seq<Arg>)
    requires Lookup(name).Some? && |args| == Arity(Lookup(name).value)
    ensures Convert(args) == ValueErrorRaised ==> Perform(name, args) == Failed(NotNumeric)
    ensures !AllNumeric(args) ==> Perform(name, args) == Failed(NotNumeric) || Perform(name, args).Raises?
  {
  }

  /** An instance of that order: dividing "abc" by 0 is a numeric error, not a division by zero. */
  lemma DivideTextByZero(name: string, t: string)
    requires Lower(name) == "divide"
    ensures Perform(name, [NonNumeric(t), Num(0)]) == Failed(NotNumeric)
  {
    LookupKey(Divide, name);
    ConversionBeforeDomain(name, [NonNumeric(t), Num(0)]);
  }

  /** `divide` is floor division, with division by 0 reported as an error. */
  lemma PerformDivide(name: string, x: int, y: int)
    requires Lower(name) == "divide"
    ensures y == 0 ==> Perform(name, [Num(x), Num(y)]) == Failed(DivisionByZero)
    ensures y != 0 ==> Perform(name, [Num(x), Num(y)]) == Returned(Whole(FloorDiv(x, y)))
  {
    LookupKey(Divide, name);
    assert Convert([Num(x), Num(y)]) == Converted([x, y]);
  }

  /** `fact` is the factorial, with a negative argument reported as an error and an argument
      above a C `long` reported through the generic error branch. */
  lemma PerformFact(name: string, n: int)
    requires Lower(name) == "fact"
    ensures n < 0 ==> Perform(name, [Num(n)]) == Failed(NegativeFactorial)
    ensures 0 <= n <= LongMax ==> Perform(name, [Num(n)]) == Returned(Whole(Factorial(n)))
    ensures n > LongMax ==> Message(Perform(name, [Num(n)]).error)
                            == "Error while performing operation " + name + ": " + FactorialTooLarge
  {
    LookupKey(Fact, name);
    assert Convert([Num(n)]) == Converted([n]);
  }

  /** `pow`: an integer power for a non-negative exponent; for a negative one, the generic error
      branch when an operand does not fit a float or the base is 0, and a float otherwise. */
  lemma PerformPow(name: string, x: int, y: int)
    requires Lower(name) == "pow"
    ensures y >= 0 ==> Perform(name, [Num(x), Num(y)]) == Returned(Whole(Power(x, y)))
    ensures y < 0 && !(FitsFloat(x) && FitsFloat(y)) ==>
              Message(Perform(name, [Num(x), Num(y)]).error)
              == "Error while performing operation " + name + ": " + IntTooLargeForFloat
    ensures y < 0 && FitsFloat(x) && FitsFloat(y) && x != 0 ==> Perform(name, [Num(x), Num(y)]) == Returned(FloatValue)
    ensures y < 0 && FitsFloat(x) && FitsFloat(y) && x == 0 ==>
              Message(Perform(name, [Num(x), Num(y)]).error)
              == "Error while performing operation " + name + ": " + ZeroToNegativePower
  {
    LookupKey(Pow, name);
    assert Convert([Num(x), Num(y)]) == Converted([x, y]);
  }
}
