# Integer calculator service: a Dafny model

This project models the core of a small HTTP calculator service. The service has two versions:

- `kaplat4/main.py`, the complete one;
- `part3.py`, an earlier one with no request counter, no logger registry and a different history ordering.

What is modelled:

- **Operation registry.** Seven integer operations (plus, minus, times, divide, pow, abs, fact), found by case-insensitive name.
- **Evaluator** (`perform_operation`). It runs its checks in a fixed order: unknown name, then argument count, then (kaplat4 only) integer conversion, then the domain checks (division by 0, negative factorial). Only then does it apply the function.
- **Stack engine.** A shared LIFO list of arguments. Push appends many values. Remove pops a count, all or nothing. Operate pops the operation's arity, evaluates, and on failure pushes the popped entries back.
- **History ledger.** An append-only list of successful calculations, tagged STACK or INDEPENDENT, queried by flavor.
- **Logger-level registry.** Three named loggers and the level each records from.
- **Request wrapper** (kaplat4). It numbers each request before dispatch and turns an escaped exception into a 500 reply.

Layout:

- `wrappers.dfy`: Option and Result.
- `text.dfy`: ASCII lower-casing and Python's `str()` of an integer.
- `operations.dfy`: the registry and the integer functions, including Python's floor division.
- `evaluator.dfy`: kaplat4's evaluator.
- `stack_ops.dfy`: the pop loop, the drop loop and the rollback loop, shared by both versions.
- `history.dfy`: records and both history orderings.
- `loggers.dfy`: the level registry.
- `protocol.dfy`: parsed requests and transport-agnostic replies.
- `calculator.dfy`: kaplat4's service.
- `part3.dfy`: part3's service.

Each service has two parts:

- Pure functions (`OperateSpec`, `Step`, …) that say what every handler does to the state.
- A `Service` class whose fields are the source's module globals. Its methods change those fields step by step, as the handlers do. Each method's postcondition ties its new state and reply to the pure function.

Arguments in kaplat4 are `Num(n)`, `NonNumeric(text)` or `NonScalar(detail)`:

- `Num(n)`: an integer, which `int()` returns.
- `NonNumeric(text)`: a string such as "abc", for which `int()` raises ValueError. The evaluator catches this.
- `NonScalar(detail)`: a JSON null, array or object, for which `int()` raises TypeError. The evaluator does not catch this.

`PUT /calculator/stack/arguments` pushes whatever it is given, so all three kinds can sit on the stack.

Where the code and its written description disagree, the model follows the code:

- Operand order. The stack hands the evaluator the former top first, so pushing `[10, 2]` and dividing computes `2 // 10 = 0`, not 5 (`Calculator.OperateDivideOrder`).
- Argument order in history. A STACK record lists its arguments in pop order, top first.
- Malformed bodies. An undecodable body is not a 400 reply. It raises inside the handler, so kaplat4 answers 500 and part3 drops the connection.
- Unfiltered history. With no flavor, kaplat4 returns the history in insertion order. part3 returns all STACK records and then all INDEPENDENT records (`History.Grouped`).
- Locking. The source has no locks, so everything is modelled sequentially.

Lower-casing is modelled on ASCII letters only. The only non-ASCII character whose lower-case form is ASCII is the Kelvin sign, which becomes 'k'. No registry key contains a 'k', so the ASCII model accepts exactly the names Python's `str.lower()` accepts.

The model follows CPython 3.11 or later on a 64-bit Linux or macOS build:

- A C `long` is 64 bits wide, so `math.factorial` refuses arguments above 9223372036854775807.
- An int converts to a float only below 2^1024 - 2^970 in magnitude.
- `str()` refuses ints of more than 4300 digits.

Two things the source does as written are kept beside the corrected service (see Findings):

- an operate that loses its popped entries on a TypeError;
- a result over the digit limit that is recorded and then answered with 500.

The pure functions take a `Variant`: `Corrected`, or `AsWritten` with the text `str()` raises past the digit limit. `Calculator.Step` is the corrected service, and the `Service` class implements it.

## Model

| member | source | states |
|---|---|---|
| Text.Lower | kaplat4/main.py:28 | the result has the input's length and every character is the lower-case form of the input character at the same position |
| Text.LowerIdempotent | kaplat4/main.py:28 | lower-casing an already lower-cased name changes nothing |
| Text.NatToStringRoundTrip | kaplat4/main.py:201-202 | the decimal text written for a size or count reads back as that number |
| Operations.KeyLowercase | kaplat4/main.py:15-23 | every registry key is already in lower case |
| Operations.RegistryWellFormed | kaplat4/main.py:15-23 | each of the seven operations is registered under its own key and each key maps back to its operation |
| Operations.Lookup | kaplat4/main.py:28-33 | a name is found exactly when its lower-cased form is a registry key, and then it is found as the operation with that key |
| Operations.LookupExact | kaplat4/main.py:28-33 | lookup yields operation op if and only if the lower-cased name equals op's key (both directions) |
| Operations.LookupIgnoresCase | kaplat4/main.py:28-30 | a name and its lower-cased form find the same operation |
| Operations.LookupKey | kaplat4/main.py:28-33 | any spelling of a key, in any letter case, finds that key's operation |
| Operations.FloorDiv | kaplat4/main.py:19 | the quotient q of a by b satisfies b*q <= a < b*q + b for positive b, and the mirrored bounds for negative b, so it is rounded toward negative infinity |
| Operations.FloorDivUnique | kaplat4/main.py:19 | those bounds determine the quotient: any q meeting them equals FloorDiv(a, b) |
| Operations.FloorDivExamples | kaplat4/main.py:19 | -7 // 2 is -4 and 7 // -2 is -4, unlike truncation; 2 // 10 is 0 |
| Operations.Power | kaplat4/main.py:20 | a power of a non-negative base is non-negative, and of a positive base positive |
| Operations.PowerAdd | kaplat4/main.py:20 | Power(a, m + n) equals Power(a, m) * Power(a, n) |
| Operations.Factorial | kaplat4/main.py:22 | n! is at least 1 and at least n |
| Operations.Compute | kaplat4/main.py:50-54 | once the domain checks pass, only pow and fact can fail. fact fails exactly above 9223372036854775807, with math.factorial's OverflowError text. pow fails exactly for a negative exponent with base 0 or an operand that does not fit a float; the text is "int too large to convert to float" when an operand does not fit, else the ZeroDivisionError text. pow with a negative exponent yields a float exactly when neither failure applies. divide yields the floor quotient. abs yields a non-negative value equal to x or -x |
| Operations.DigitsOfPowerOfTen | kaplat4/main.py:217 | 10 ** k is written with k + 1 digits, so it exceeds str()'s digit limit once k reaches 4300 |
| Evaluator.Convert | kaplat4/main.py:40-43 | conversion succeeds exactly when every argument is an integer, and then yields their values in order; a ValueError comes from a non-numeric argument and a TypeError from a non-scalar one |
| Evaluator.ConvertStopsAtFirst | kaplat4/main.py:41 | the first non-integer in left-to-right order decides between ValueError and TypeError, whatever follows it |
| Evaluator.Apply | kaplat4/main.py:45-54 | divide by 0 gives the division error and a negative fact gives the factorial error, both before the function runs. fact above 9223372036854775807 gives the generic error with the OverflowError text. Any other exception text is one of pow's two or fact's one. A value is returned exactly when the values are in the domain, which includes those three failures |
| Evaluator.Perform | kaplat4/main.py:26-54 | returns a value exactly when the name is registered, the count equals the arity, every argument is an integer and the values are in the domain, which counts the exceptions pow and fact raise; an escaping exception comes from a non-scalar argument; an unknown name is reported as such |
| Evaluator.UnknownComesFirst | kaplat4/main.py:30-31 | an unregistered name gives "Error: unknown operation: {name}" whatever the arguments are |
| Evaluator.ArityBeforeConversion | kaplat4/main.py:35-38 | too few or too many arguments give "Not enough…" or "Too many…" before any argument is converted |
| Evaluator.ConversionBeforeDomain | kaplat4/main.py:40-48 | for every registered name with the right number of arguments: a ValueError from `int()` gives "Error: Arguments must be numeric (integers)", and an argument that is not an integer gives that error or lets the TypeError out, never a domain error |
| Evaluator.DivideTextByZero | kaplat4/main.py:40-46 | a non-numeric dividend with divisor 0 is reported as non-numeric, not as a division by 0 |
| Evaluator.PerformDivide | kaplat4/main.py:45-52 | divide (any letter case) by 0 gives the division error; otherwise it returns the floor quotient |
| Evaluator.PerformFact | kaplat4/main.py:47-54 | fact of a negative number gives the factorial error. Up to 9223372036854775807 it returns n!. Above that it gives "Error while performing operation {name}: factorial() argument should not exceed 9223372036854775807" |
| Evaluator.PerformPow | kaplat4/main.py:50-54 | pow with a non-negative exponent returns the integer power. With a negative one, an operand of magnitude 2^1024 - 2^970 or more gives the generic error with "int too large to convert to float". Otherwise base 0 gives the generic error with the zero-power text, and any other base returns a float |
| StackOps.PopOrder | kaplat4/main.py:206 | the popped list has k entries and its i-th entry is the stack's i-th entry from the top |
| StackOps.Reverse | kaplat4/main.py:209 | the reversed list has the same length and holds the i-th entry from the end at position i |
| StackOps.PopMany | kaplat4/main.py:206 | popping k times leaves the stack without its top k entries and returns them top first |
| StackOps.DropTop | kaplat4/main.py:356-357 | popping count times leaves the stack without exactly its top count entries |
| StackOps.PushReversed | kaplat4/main.py:209-210 | appending the popped entries in reverse puts them back behind the remaining stack, last popped first |
| StackOps.RollbackRestores | kaplat4/main.py:206-210 | popping k entries and appending them back in reverse restores the stack element for element |
| StackOps.PushThenPop | kaplat4/main.py:305 | after extending the stack with values, popping as many returns them last-pushed first and leaves the old stack |
| History.ParseFlavor | kaplat4/main.py:229-235 | a flavor is selected only by its exact upper-case name |
| History.ParseFlavorName | kaplat4/main.py:229-233 | "STACK" and "INDEPENDENT" select their flavors |
| History.OfFlavor | kaplat4/main.py:231-233 | the filtered list is no longer than the history and holds only records of the requested flavor |
| History.OfFlavorKeepsAll | kaplat4/main.py:231-233 | every record of the requested flavor appears in the filtered list |
| History.OfFlavorAppend | kaplat4/main.py:231-233 | filtering distributes over concatenation, so insertion order is kept |
| History.OfFlavorOnly | kaplat4/main.py:231-233 | filtering a filtered list again keeps it for the same flavor and empties it for the other |
| History.AppendRecord | kaplat4/main.py:214-215 | a new record extends its own flavor's view by itself and leaves the other view unchanged |
| History.FlavorSplit | part3.py:93-95 | the STACK view and the INDEPENDENT view together hold exactly the records of the history |
| History.SplitLast | part3.py:93-95 | a record appended to the history joins exactly one of the two flavor views |
| History.GroupedIsPermutation | part3.py:93-95 | part3's unfiltered view is a permutation of the history |
| History.GroupedKeepsOrder | part3.py:93-95 | within each flavor, part3's unfiltered view keeps insertion order |
| History.ViewsAgreeWhenSorted | part3.py:92-95 | when no INDEPENDENT record precedes a STACK record, the grouped and chronological views coincide |
| History.GroupedIsStackFirst | part3.py:93-95 | in part3's unfiltered view no INDEPENDENT record precedes a STACK record |
| History.ViewsAgreeIffSorted | part3.py:92-95 | the grouped and chronological views coincide exactly when no INDEPENDENT record precedes a STACK record (both directions) |
| History.NoneOfOther | kaplat4/main.py:231-233 | a history without records of a flavor filters to nothing for it |
| Loggers.ParseLevel | kaplat4/main.py:329-334 | only "ERROR", "INFO" and "DEBUG" are accepted, each as the level of that name |
| Loggers.ParseLevelName | kaplat4/main.py:329-336 | each level's name is accepted and read back as that level |
| Loggers.InitialLevels | kaplat4/main.py:109-117 | the three loggers request, stack and independent start at INFO, INFO and DEBUG, and no other name is registered |
| Protocol.CountOf | kaplat4/main.py:350 | an absent count is 0, and only a non-integer count raises |
| Calculator.EndpointOf | kaplat4/main.py:169-346 | calculate and push are reached only by a target with no query string, because they compare the raw path |
| Calculator.AsWrittenLosesEntries | kaplat4/main.py:206-212 | as written, a stack holding only a JSON null, operated on with abs, raises and ends empty; the corrected handler raises with the stack unchanged |
| Calculator.AsWrittenDigitLimit | kaplat4/main.py:206-219 | as written, pushing k (k >= 4300) and then 10 and operating with pow pops both, records 10 ** k and raises the digit-limit ValueError, so the reply is 500. After that an unfiltered history query raises too. The corrected handler replies 200 with the power |
| Calculator.OperateFailureRestores | kaplat4/main.py:192-212 | every operate call that does not reply 200 leaves the stack and the history exactly as they were |
| Calculator.OperateSuccess | kaplat4/main.py:206-225 | a successful operate removes exactly arity entries, does not push the result back, and appends one STACK record whose arguments are the popped entries, top first |
| Calculator.OperateDivideOrder | kaplat4/main.py:206-207 | with x pushed before y, divide computes y // x and removes both |
| Calculator.CalculateRecordsOnSuccess | kaplat4/main.py:280-286 | an independent calculation appends one INDEPENDENT record with the arguments as given exactly when the evaluator returns a value, and otherwise nothing; an error carries code 409 |
| Calculator.SetThenGet | kaplat4/main.py:318-336 | setting a registered logger to a valid level replies with that level, and a later get replies the same |
| Calculator.SetInvalidLevel | kaplat4/main.py:324-332 | an invalid level changes nothing: 400 for a registered name, 404 otherwise, because the name is checked first |
| Calculator.RemoveAllOrNothing | kaplat4/main.py:349-363 | a count above the size changes nothing and replies 409; a count from 0 to the size removes exactly that many top entries and replies the new size; a negative count removes nothing |
| Calculator.StepInvariants | kaplat4/main.py:169-363 | for the corrected service, on every request: history grows by at most one record, and only on a 200 reply; a raised exception changes nothing; the logger set is fixed; no handler itself replies 500 |
| Calculator.StepAsWrittenInvariants | kaplat4/main.py:169-363 | for the service as written, on every request: history grows by at most one record, and only on a 200 reply or with the digit-limit exception. A raised exception leaves the levels alone and the stack a prefix of what it was. The logger set is fixed, and no handler itself replies 500 |
| Calculator.WrapFiveHundred | kaplat4/main.py:143-149 | a reply is 500 exactly when the handler raised, and it then carries "Server encountered an unexpected error ! message: " followed by the exception text |
| Calculator.Service.constructor | kaplat4/main.py:11-13 | the service starts with an empty stack and history, counter 0 and the initial logger levels |
| Calculator.Service.StackSize | kaplat4/main.py:179-190 | replies 200 with the number of stack entries |
| Calculator.Service.Operate | kaplat4/main.py:192-226 | an empty, missing or unknown operation and a stack shorter than the arity reply 409 and change nothing; otherwise it hands over to `PopAndEvaluate`. The new stack, history and reply are those of the corrected operate specification |
| Calculator.Service.PopAndEvaluate | kaplat4/main.py:206-226 | pops with the loop and evaluates. On any failure it pushes back with the loop; on a value it records it. The new stack, history and reply are those of the corrected operate specification for a registered operation with enough entries |
| Calculator.Service.QueryHistory | kaplat4/main.py:228-252 | replies with the history filtered by flavor, or all of it in insertion order, as the corrected history specification says |
| Calculator.Service.GetLevel | kaplat4/main.py:254-264 | replies with the logger's level name, or 404 "Logger '{name}' not found". Since the service keeps exactly the three loggers, each of them always gets a 200 |
| Calculator.Service.Calculate | kaplat4/main.py:269-296 | the new history and the outcome are those of the corrected calculate specification |
| Calculator.Service.Push | kaplat4/main.py:298-316 | the stack becomes the old stack followed by the arguments in order, and the reply is the old size plus their count |
| Calculator.Service.SetLevel | kaplat4/main.py:318-337 | the new levels and the reply are those of the set-level specification |
| Calculator.Service.Remove | kaplat4/main.py:342-363 | drops with the loop; the new stack and reply are those of the remove specification |
| Calculator.Service.Dispatch | kaplat4/main.py:169-346 | the new state and outcome are those the request's route prescribes in the corrected service, and the logger set is preserved |
| Calculator.Service.HandleRequest | kaplat4/main.py:132-149 | the counter rises by exactly 1 before dispatch, whether or not the handler fails. The request's number is the new counter. The state and reply are the corrected service's, with an exception turned into the 500 reply |
| Part3.Evaluate | part3.py:20-37 | never raises on integer arguments, and an unknown name is reported as such |
| Part3.AgreesWithMain | part3.py:20-37 | on integer arguments, part3's evaluator gives exactly kaplat4's result |
| Part3.OperateRestoresOrConsumes | part3.py:58-85 | an operate that does not reply 200 leaves stack and history as they were; a successful one removes arity entries and appends one STACK record with the popped entries, top first |
| Part3.MissingOperation | part3.py:59-63 | an absent or empty operation gives "Error: unknown operation: None" with 409 |
| Part3.PushThenRemove | part3.py:120-147 | pushing values and then removing as many entries gives back the original stack |
| Part3.StepInvariants | part3.py:45-150 | on every request, history grows by at most one record and only on a 200 reply, and a raised exception changes nothing |
| Part3.Service.constructor | part3.py:7-8 | the service starts with an empty stack and history |
| Part3.Service.Operate | part3.py:58-85 | pops with the loop and rolls back with the loop on an evaluator error; the result matches part3's operate specification |
| Part3.Service.Calculate | part3.py:102-118 | the new history and outcome are those of part3's calculate specification: the reply carries the evaluator's status, and a record is added only when no error is reported |
| Part3.Service.Push | part3.py:120-131 | the stack becomes the old stack followed by the arguments, and the reply is the new size |
| Part3.Service.Remove | part3.py:133-150 | all-or-nothing removal of the top count entries, as in part3's remove specification |
| Part3.Service.Dispatch | part3.py:45-150 | the new state and outcome are those part3's route prescribes, with history in grouped order |

## Left out

- HTTP transport is not modelled: the listener, headers, `Content-Length` and URL and query parsing. Requests arrive already parsed. Replies are a status code plus a JSON or plain-text payload; the bytes written are not modelled.
- JSON decoding is not modelled. A body either decodes to an object or is `Malformed` with the exception text. The cases left out are an "operation" that is not a string, and an "arguments" value that is present but not an array, such as `null` or a string.
- Python's `int()` on JSON floats, booleans and numeric strings is not modelled. Values it converts are `Num`, and history stores the converted value, not the raw one.
- Pow's float results are not carried. When pow returns a Python float (a negative exponent, a nonzero base, and both operands fit a float), the model records only that a float was returned (`FloatValue`).
- Running out of time or memory is not modelled. The model returns the value of a very large power, factorial or product at once, where CPython may raise MemoryError.
- CPython exception texts are constants. Examples are the `pow(0, -k)` text and `invalid literal for int() with base 10: '…'`. Both vary between Python versions, and `repr` quoting of unusual strings is not modelled.
- Logging is not modelled: the log sinks, formatters, the request-number filter, all log messages and emit suppression by level. Only the name-to-level map is kept.
- Timing (`time.perf_counter` and the duration log) is not modelled.
- Concurrency is not modelled. The source has no locks and its server is single-threaded.
- part3.py's behaviour on non-integer arguments is not modelled. Its arguments are integers here.
- Raised exceptions in part3.py drop the connection without a reply. This is represented only as the `Raised` outcome.
- Lower-casing covers ASCII only. For the seven keys this decides lookup exactly (see above).
- Calculator.Service.Operate: implements the corrected operate (see Findings). As written, entries popped before a TypeError are lost, and a result of more than 4300 digits is recorded with its operands popped and a 500 reply. Both are kept as `Calculator.OperateAsWritten`.
- Calculator.Service.PopAndEvaluate: implements the corrected operate past its two guards, with the same two departures from the source as `Calculator.Service.Operate` above.
- Calculator.Service.Calculate: implements the corrected calculate. As written, a result of more than 4300 digits is recorded and then the reply is 500. This is kept in `Calculator.StepWith` with the `Written` variant.
- Calculator.Service.QueryHistory: implements the corrected query. As written, on a view holding a result of more than 4300 digits the handler raises after its 200 status line and headers are sent (kaplat4/main.py:250-251), so the wrapper's 500 ends up inside the body. This is kept in `Calculator.StepWith` with the `Written` variant.
- Calculator.Service.Dispatch: implements the corrected service, so it inherits both corrections above. The as-written dispatch is `Calculator.StepWith` with the `Written` variant, and `Calculator.StepAsWrittenInvariants` states what it keeps.
- Calculator.Service.HandleRequest: wraps the corrected dispatch, so it inherits both corrections above.
- Calculator.StepInvariants: holds for the corrected service only. As written, a result over the digit limit grows the history on a 500 reply, and a TypeError in operate loses the popped entries. `Calculator.StepAsWrittenInvariants` states the weaker invariant the source keeps.
- Part3.StepInvariants: does not model the digit limit in part3.py. There, a result of more than 4300 digits is recorded and a 200 status line is sent, and then `json.dumps` raises and the connection drops. The same happens to a history view holding such a result.
- Part3.Service.Operate: replies with a result of any size; the digit limit is not modelled (see the Part3.StepInvariants line).
- Part3.Service.Calculate: replies with a result of any size; the digit limit is not modelled (see the Part3.StepInvariants line).
- Part3.Service.Dispatch: replies with results of any size; the digit limit is not modelled (see the Part3.StepInvariants line).

## Findings

| source | as written | input that shows it | evidently intended | confidence | as-written member | corrected member |
|---|---|---|---|---|---|---|
| kaplat4/main.py:206-212 | the operate handler pops its arguments and rolls back only errors that `perform_operation` returns; a TypeError from `int()` (raised for a JSON null, array or object on the stack) escapes past `except ValueError` with the entries already popped | `PUT /calculator/stack/arguments {"arguments": [null]}` then `GET /calculator/stack/operate?operation=abs`: the reply is 500 and the null entry is gone | push the popped entries back before the exception leaves the handler, so that a failed operate never changes the stack | not executed; high that the path exists, medium that it is unintended | Calculator.AsWrittenLosesEntries | Calculator.OperateFailureRestores |
| kaplat4/main.py:214-219 | operate and calculate append the record and only then format `{result}` into a log line, which raises ValueError for an int of more than 4300 digits, CPython's default limit; operate has already popped the operands, and every later history view holding the record fails in `json.dumps` | `PUT /calculator/stack/arguments {"arguments": [4301, 10]}` then `GET /calculator/stack/operate?operation=pow`: the stack is emptied, the record of 10 ** 4301 is added, the reply is 500, and `GET /calculator/history` then raises after its 200 status line and headers are sent, so the wrapper's 500 ends up inside the body | a result is either replied or not recorded, so the history grows only on a 200 reply | not executed; high on CPython 3.11 and later (and 3.10.7, 3.9.14, 3.8.14), where the limit is the default | Calculator.AsWrittenDigitLimit | Calculator.StepInvariants |
