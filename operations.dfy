/** The operation registry `OPERATIONS` (kaplat4/main.py:15-23, identical in part3.py:10-18)
    and the integer functions it maps names to. */
module Operations {
  import opened Wrappers
  import opened Text

  /** The seven registered operations, as a closed enumeration. */
  datatype Op = Plus | Minus | Times | Divide | Pow | Abs | Fact

  /** What an operation returns: an integer, or the Python float that `pow` returns for a
      negative exponent. The model does not carry the float's value. */
  datatype Number = Whole(value: int) | FloatValue

  /** The registry key of each operation. */
  function Key(op: Op): string {
    match op
    case Plus => "plus"
    case Minus => "minus"
    case Times => "times"
    case Divide => "divide"
    case Pow => "pow"
    case Abs => "abs"
    case Fact => "fact"
  }

  /** The arity column of the registry. */
  function Arity(op: Op): nat {
    match op
    case Abs => 1
    case Fact => 1
    case _ => 2
  }

  /** The registry: name to operation. */
  const Registry: map<string, Op> :=
    map["plus" := Plus, "minus" := Minus, "times" := Times, "divide" := Divide,
        "pow" := Pow, "abs" := Abs, "fact" := Fact]

  /** Every key is in lower case. */
  lemma KeyLowercase(op: Op)
    ensures Lower(Key(op)) == Key(op)
  {
    var k := Key(op);
    assert forall i :: 0 <= i < |k| ==> !IsUpper(k[i]) by {
      match op
      case Plus =>
      case Minus =>
      case Times =>
      case Divide =>
      case Pow =>
      case Abs =>
      case Fact =>
    }
    LowerOfLowercase(k);
  }

  /** The registry holds exactly the seven keys, each mapped to its own operation. */
  lemma RegistryWellFormed()
    ensures forall op: Op :: Key(op) in Registry && Registry[Key(op)] == op
    ensures forall k :: k in Registry ==> Key(Registry[k]) == k
  {
    forall op: Op
      ensures Key(op) in Registry && Registry[Key(op)] == op
    {
      match op
      case Plus =>
      case Minus =>
      case Times =>
      case Divide =>
      case Pow =>
      case Abs =>
      case Fact =>
    }
  }

  /** `name.lower() in OPERATIONS` followed by `OPERATIONS[name.lower()]`. */
  function Lookup(name: string): (r: Option<Op>)
    ensures r.Some? <==> Lower(name) in Registry
    ensures r.Some? ==> Key(r.value) == Lower(name)
  {
    var k := Lower(name);
    if k in Registry then Some(Registry[k]) else None
  }

  /** Lookup finds exactly the operation whose key is the lower-cased name. */
  lemma LookupExact(name: string, op: Op)
    ensures Lookup(name) == Some(op) <==> Lower(name) == Key(op)
  {
    RegistryWellFormed();
  }

  /** Lookup ignores case: a name and its lower-cased form find the same operation. */
  lemma LookupIgnoresCase(name: string)
    ensures Lookup(name) == Lookup(Lower(name))
  {
    LowerIdempotent(name);
  }

  /** Each operation is found under its own key, written in any case. */
  lemma LookupKey(op: Op, name: string)
    requires Lower(name) == Key(op)
    ensures Lookup(name) == Some(op)
  {
    LookupExact(name, op);
  }

  /** Python's `//` on integers: division rounded toward negative infinity. */
  function FloorDiv(a: int, b: int): (q: int)
    requires b != 0
    ensures b > 0 ==> b * q <= a < b * q + b
    ensures b < 0 ==> b * q + b < a <= b * q
  {
    if b > 0 then a / b else (-a) / (-b)
  }

  /** A positive multiple of `b` that stays below `b` has a factor below 1. */
  lemma CancelBelow(b: int, x: int)
    requires b > 0
    ensures b * x < b ==> x < 1
  {
    if x >= 1 {
      assert b * x == b + b * (x - 1);
      assert b * (x - 1) >= 0;
    }
  }

  /** The bounds in `FloorDiv`'s contract pin its result down: any quotient meeting them is it. */
  lemma FloorDivUnique(a: int, b: int, q: int)
    requires b != 0
    requires b > 0 ==> b * q <= a < b * q + b
    requires b < 0 ==> b * q + b < a <= b * q
    ensures q == FloorDiv(a, b)
  {
    var f := FloorDiv(a, b);
    var c := if b > 0 then b else -b;
    assert c * (q - f) == c * q - c * f;
    assert c * (f - q) == c * f - c * q;
    CancelBelow(c, q - f);
    CancelBelow(c, f - q);
  }

  /** Floor division differs from truncation when the signs differ, and agrees with it otherwise. */
  lemma FloorDivExamples()
    ensures FloorDiv(7, 2) == 3 && FloorDiv(-7, 2) == -4
    ensures FloorDiv(7, -2) == -4 && FloorDiv(-7, -2) == 3
    ensures FloorDiv(2, 10) == 0
  {
  }

  /** `pow(a, n)` for a non-negative exponent. */
  function Power(a: int, n: nat): (r: int)
    ensures a >= 0 ==> r >= 0
    ensures a > 0 ==> r > 0
  {
    if n == 0 then 1 else a * Power(a, n - 1)
  }

  /** Exponents add when powers of the same base multiply. */
  lemma {:induction false} PowerAdd(a: int, m: nat, n: nat)
    ensures Power(a, m + n) == Power(a, m) * Power(a, n)
  {
    if m > 0 {
      PowerAdd(a, m - 1, n);
      assert Power(a, m + n) == a * Power(a, (m - 1) + n);
      MulAssoc(a, Power(a, m - 1), Power(a, n));
    }
  }

  lemma MulAssoc(x: int, y: int, z: int)
    ensures x * (y * z) == (x * y) * z
  {
  }

  /** `math.factorial(n)` for a non-negative argument. */
  function Factorial(n: nat): (r: nat)
    ensures r >= 1
    ensures r >= n
  {
    if n == 0 then 1 else n * Factorial(n - 1)
  }

  /** The message CPython's `pow(0, k)` raises for a negative `k` (ZeroDivisionError). */
  const ZeroToNegativePower := "0.0 cannot be raised to a negative power"

  /** `LONG_MAX` of a 64-bit C `long`: `math.factorial` refuses larger arguments. */
  const LongMax := 9223372036854775807

  /** The OverflowError `math.factorial(n)` raises for `n > LongMax`. */
  const FactorialTooLarge := "factorial() argument should not exceed 9223372036854775807"

  /** 2^1024 - 2^970: halfway between the largest finite double and 2^1024. CPython rounds an
      int to 53 significant bits, ties to even, so every int of at least this magnitude rounds
      to 2^1024 and cannot be converted to a float. */
  const FloatOverflowBound := 179769313486231580793728971405303415079934132710037826936173778980444968292764750946649017977587207096330286416692887910946555547851940402630657488671505820681908902000708383676273854845817711531764475730270069855571366959622842914819860834936475292719074168444365510704342711559699508093042880177904174497792

  /** Whether `float(x)` succeeds. */
  predicate FitsFloat(x: int) {
    -FloatOverflowBound < x < FloatOverflowBound
  }

  /** The OverflowError an int raises when it is converted to a float it does not fit. */
  const IntTooLargeForFloat := "int too large to convert to float"

  /** `func(*args)` for the registered function, once the evaluator's own domain checks
      (no division by 0, no negative factorial) have passed. A failure carries the text of the
      exception raised: `math.factorial` refuses arguments above `LongMax`, and `pow` with a
      negative exponent works on floats, so it fails when an operand does not fit a float and
      then when the base is 0. */
  function Compute(op: Op, a: seq<int>): (r: Result<Number, string>)
    requires |a| == Arity(op)
    requires op == Divide ==> a[1] != 0
    requires op == Fact ==> a[0] >= 0
    ensures r.Failure? ==> op == Pow || op == Fact
    ensures op == Fact ==> (r.Failure? <==> a[0] > LongMax)
    ensures op == Fact && r.Failure? ==> r.error == FactorialTooLarge
    ensures op == Pow ==> (r.Failure? <==> a[1] < 0 && (a[0] == 0 || !FitsFloat(a[0]) || !FitsFloat(a[1])))
    ensures op == Pow && r.Failure? ==>
              r.error == if FitsFloat(a[0]) && FitsFloat(a[1]) then ZeroToNegativePower else IntTooLargeForFloat
    ensures r == Success(FloatValue) <==> op == Pow && a[1] < 0 && a[0] != 0 && FitsFloat(a[0]) && FitsFloat(a[1])
    ensures op == Divide ==> r.Success? && r.value.Whole? && FloorDiv(a[0], a[1]) == r.value.value
    ensures op == Abs ==> r.Success? && r.value.Whole? && r.value.value >= 0
                          && (r.value.value == a[0] || r.value.value == -a[0])
  {
    match op
    case Plus => Success(Whole(a[0] + a[1]))
    case Minus => Success(Whole(a[0] - a[1]))
    case Times => Success(Whole(a[0] * a[1]))
    case Divide => Success(Whole(FloorDiv(a[0], a[1])))
    case Pow =>
      if a[1] >= 0 then Success(Whole(Power(a[0], a[1])))
      else if !FitsFloat(a[0]) || !FitsFloat(a[1]) then Failure(IntTooLargeForFloat)
      else if a[0] == 0 then Failure(ZeroToNegativePower)
      else Success(FloatValue)
    case Abs => Success(Whole(if a[0] < 0 then -a[0] else a[0]))
    case Fact =>
      if a[0] > LongMax then Failure(FactorialTooLarge) else Success(Whole(Factorial(a[0])))
  }

  /** `10 ** k` is written with `k + 1` digits. */
  lemma {:induction false} DigitsOfPowerOfTen(k: nat)
    ensures |NatToString(Power(10, k))| == k + 1
  {
    if k > 0 {
      DigitsOfPowerOfTen(k - 1);
      var p := Power(10, k - 1);
      assert Power(10, k) == 10 * p;
      assert (10 * p) / 10 == p && (10 * p) % 10 == 0;
    }
  }
}
