/**
 * The column values psycopg2 hands back, and the normalisation the convertor
 * applies to each of them before it is placed in a row mapping
 * (`decimal_conversion_to_python_datatypes`, main.py:47-53).
 */
module Values {
  import opened Wrappers

  /**
   * The Python exceptions that escape `execute_query`, which catches only
   * `psycopg2.Error`.  InvalidOperation is `decimal.InvalidOperation`.
   */
  datatype PyException = IndexError | TypeError | InvalidOperation

  /** The precision of Python's default decimal context. */
  const Precision: nat := 28

  function Abs(x: int): nat
  {
    if x < 0 then -x else x
  }

  /** 10 to the power n. */
  function Pow10(n: nat): (p: nat)
    ensures p >= 1
  {
    if n == 0 then 1 else 10 * Pow10(n - 1)
  }

  /**
   * A finite `decimal.Decimal`, as psycopg2 builds one from the text of a
   * PostgreSQL `numeric`: the number `digits` / 10^`scale`.  "10.50" is
   * Decimal(1050, 2), "-3" is Decimal(-3, 0).
   */
  datatype Decimal = Decimal(digits: int, scale: nat)

  /**
   * A Python value in a fetched row.  `Float` is a binary64 number, kept as
   * the decimal it is the nearest double to (the rounding is not modelled);
   * `Array` is the list psycopg2 returns for a PostgreSQL array; `Other` is an
   * object of a type `json.dumps` cannot encode (a `datetime`, a `memoryview`,
   * a `UUID`, ...), named by its type.  The decimal under `Float` is not
   * canonical: Float(Decimal(1050, 2)) and Float(Decimal(105, 1)) stand for
   * the same double but are different values here.
   */
  datatype Value =
    | Null
    | Bool(b: bool)
    | Int(i: int)
    | Float(near: Decimal)
    | Str(s: string)
    | Dec(d: Decimal)
    | Array(items: seq<Value>)
    | Other(typeName: string)

  /** `int(value)`: Python truncates a Decimal toward zero. */
  function Truncate(d: Decimal): int
  {
    var q := Abs(d.digits) / Pow10(d.scale);
    if d.digits >= 0 then q else -q
  }

  /**
   * Truncation toward zero keeps the sign of the value and gives the largest
   * magnitude whose multiple of 10^scale does not exceed the value's.
   */
  lemma TruncateBounds(d: Decimal)
    ensures Abs(Truncate(d)) * Pow10(d.scale) <= Abs(d.digits) < (Abs(Truncate(d)) + 1) * Pow10(d.scale)
    ensures Truncate(d) != 0 ==> (Truncate(d) > 0 <==> d.digits > 0)
  {
    var a, p := Abs(d.digits), Pow10(d.scale);
    QuotientBounds(a, p);
  }

  /** The Euclidean quotient of a natural number is the largest multiplier not above it. */
  lemma QuotientBounds(a: nat, p: nat)
    requires p > 0
    ensures 0 <= a / p
    ensures (a / p) * p <= a < (a / p + 1) * p
    ensures a / p == 0 ==> a < p
  {
    var q, r := a / p, a % p;
    assert a == q * p + r;
    assert (q + 1) * p == q * p + p;
  }

  /**
   * `value % 1`, scaled by 10^scale.  Decimal's remainder has the sign of the
   * dividend, so it is what is left after truncation, not Dafny's `%`.
   */
  function FractionDigits(d: Decimal): int
  {
    d.digits - Truncate(d) * Pow10(d.scale)
  }

  /** The test `value % 1 == 0` of main.py:49. */
  predicate IsIntegral(d: Decimal)
  {
    FractionDigits(d) == 0
  }

  /**
   * Decimal's `%` first computes the integer quotient, and raises
   * InvalidOperation (DivisionImpossible) when that quotient has more digits
   * than the context's precision.  For `value % 1` the quotient is `int(value)`.
   */
  predicate DivisionImpossible(d: Decimal)
  {
    Abs(Truncate(d)) >= Pow10(Precision)
  }

  /** A positive multiple of p is at least p. */
  lemma MultipleAtLeast(p: nat, m: nat)
    requires m >= 1
    ensures p * m >= p
  {
  }

  /**
   * The `% 1 == 0` test says exactly that the decimal's value is an
   * integer, and then `int(value)` is that integer.
   */
  lemma IntegralIffDivisible(d: Decimal)
    ensures IsIntegral(d) <==> d.digits % Pow10(d.scale) == 0
    ensures IsIntegral(d) ==> Truncate(d) * Pow10(d.scale) == d.digits
  {
    var p, a := Pow10(d.scale), d.digits;
    var q, r := Abs(a) / p, Abs(a) % p;
    assert Abs(a) == q * p + r;
    if a >= 0 {
      assert Truncate(d) == q && FractionDigits(d) == r;
      EuclideanUnique(a, p, q, r);
    } else {
      assert Truncate(d) == -q && FractionDigits(d) == -r;
      // a == -(q * p) - r, so a % p == 0 exactly when r == 0
      if r == 0 {
        assert a == (-q) * p;
        MultipleExact(a, -q, p);
      } else {
        assert a == (-q - 1) * p + (p - r);
        EuclideanUnique(a, p, -q - 1, p - r);
      }
    }
  }

  /** Dafny's `%` of an exact multiple is zero. */
  lemma MultipleExact(a: int, k: int, p: int)
    requires p > 0 && a == k * p
    ensures a / p == k && a % p == 0
  {
    EuclideanUnique(a, p, k, 0);
  }

  /** Quotient and remainder are the only ones with 0 <= r < p. */
  lemma EuclideanUnique(a: int, p: int, q: int, r: int)
    requires p > 0 && a == q * p + r && 0 <= r < p
    ensures a / p == q && a % p == r
  {
    var q', r' := a / p, a % p;
    assert a == q' * p + r';
    var m := q - q';
    assert m * p == q * p - q' * p;
    assert m * p == r' - r;
    if m >= 1 {
      MultipleAtLeast(p, m);
    }
  }

  /** A decimal whose digits are k * 10^scale is integral, and `int()` gives k. */
  lemma TruncateExact(d: Decimal, k: int)
    requires k * Pow10(d.scale) == d.digits
    ensures IsIntegral(d) && Truncate(d) == k
  {
    var p := Pow10(d.scale);
    if d.digits >= 0 {
      MultipleExact(d.digits, k, p);
    } else {
      MultipleExact(-d.digits, -k, p);
    }
  }

  /**
   * `decimal_conversion_to_python_datatypes` (main.py:47-53): an integral
   * Decimal becomes the int of equal value, any other Decimal a float, and
   * every other value is returned unchanged; a Decimal of magnitude at least
   * 10^28 makes `value % 1` raise InvalidOperation.
   */
  function Normalize(v: Value): (r: Result<Value, PyException>)
    ensures r.Err? <==> v.Dec? && Abs(v.d.digits) >= Pow10(Precision + v.d.scale)
    ensures r.Err? ==> r.error == InvalidOperation
    ensures r.Ok? ==> !r.value.Dec?
    ensures !v.Dec? ==> r == Ok(v)
    ensures v.Dec? && r.Ok? ==> (r.value.Int? <==> v.d.digits % Pow10(v.d.scale) == 0)
    ensures v.Dec? && r.Ok? && r.value.Int? ==> r.value.i * Pow10(v.d.scale) == v.d.digits
    ensures v.Dec? && r.Ok? && !r.value.Int? ==> r.value == Float(v.d)
  {
    match v
    case Dec(d) =>
      IntegralIffDivisible(d);
      DivisionImpossibleIffLarge(d);
      if DivisionImpossible(d) then Err(InvalidOperation)
      else if IsIntegral(d) then Ok(Int(Truncate(d)))
      else Ok(Float(d))
    case _ => Ok(v)
  }

  /** Normalising a normalised value changes nothing: no Decimal survives the first pass. */
  lemma NormalizeIdempotent(v: Value)
    requires Normalize(v).Ok?
    ensures Normalize(Normalize(v).value) == Normalize(v)
  {
  }

  /** A multiple of p is below N * p exactly when the multiplier is below N. */
  lemma {:induction false} MultipleBelow(q: nat, n: nat, p: nat)
    requires p > 0
    ensures q * p < n * p <==> q < n
  {
    if q < n {
      assert n * p == q * p + (n - q) * p;
      MultipleAtLeast(p, n - q);
    } else {
      assert q * p == n * p + (q - n) * p;
    }
  }

  /** The quotient is too large exactly when the value's magnitude is at least 10^28. */
  lemma DivisionImpossibleIffLarge(d: Decimal)
    ensures DivisionImpossible(d) <==> Abs(d.digits) >= Pow10(Precision + d.scale)
  {
    var t, p, n := Abs(Truncate(d)), Pow10(d.scale), Pow10(Precision);
    TruncateBounds(d);
    Pow10Add(Precision, d.scale);
    MultipleBelow(t, n, p);
    MultipleBelow(t + 1, n, p);
  }

  lemma Pow10Add(m: nat, n: nat)
    ensures Pow10(m + n) == Pow10(m) * Pow10(n)
  {
    if n > 0 {
      Pow10Add(m, n - 1);
      assert Pow10(m + n) == 10 * Pow10(m + n - 1);
    }
  }

  /**
   * Trailing zeros do not matter: "10", "10.0" and "10.00" all become the
   * int 10, a non-integral value stays non-integral however many zeros
   * follow it, and a value too large for `% 1` stays too large.
   */
  lemma {:induction false} TrailingZerosIrrelevant(digits: int, scale: nat, zeros: nat)
    ensures var long := Normalize(Dec(Decimal(digits * Pow10(zeros), scale + zeros)));
            var short := Normalize(Dec(Decimal(digits, scale)));
            (long.Err? <==> short.Err?)
            && (long.Ok? ==> (long.value.Int? <==> short.value.Int?))
            && (long.Ok? && long.value.Int? ==> long == short)
  {
    var long, short := Decimal(digits * Pow10(zeros), scale + zeros), Decimal(digits, scale);
    Pow10Add(scale, zeros);
    LargeScaled(digits, scale, zeros);
    IntegralIffDivisible(long);
    IntegralIffDivisible(short);
    if IsIntegral(short) {
      ScaleUp(Truncate(short), digits, Pow10(scale), Pow10(zeros));
      TruncateExact(long, Truncate(short));
    }
    if IsIntegral(long) {
      ScaleDown(Truncate(long), digits, Pow10(scale), Pow10(zeros));
      TruncateExact(short, Truncate(long));
    }
  }

  /** Scaling by 10^zeros on both sides keeps the comparison with 10^28. */
  lemma LargeScaled(digits: int, scale: nat, zeros: nat)
    ensures Abs(digits * Pow10(zeros)) >= Pow10(Precision + (scale + zeros))
            <==> Abs(digits) >= Pow10(Precision + scale)
  {
    var pz := Pow10(zeros);
    Pow10Add(Precision + scale, zeros);
    assert Abs(digits * pz) == Abs(digits) * pz;
    MultipleBelow(Abs(digits), Pow10(Precision + scale), pz);
  }

  lemma ScaleUp(k: int, digits: int, ps: int, pz: int)
    requires k * ps == digits
    ensures k * (ps * pz) == digits * pz
  {
  }

  lemma ScaleDown(k: int, digits: int, ps: int, pz: int)
    requires pz > 0 && k * (ps * pz) == digits * pz
    ensures k * ps == digits
  {
  }

  /** 10.00 becomes the int 10, 10.50 a float, and -3.00 the int -3. */
  lemma NormalizeExamples()
    ensures Normalize(Dec(Decimal(1000, 2))) == Ok(Int(10))
    ensures Normalize(Dec(Decimal(1050, 2))) == Ok(Float(Decimal(1050, 2)))
    ensures Normalize(Dec(Decimal(-300, 2))) == Ok(Int(-3))
  {
  }

  lemma Pow10Precision()
    ensures Pow10(Precision) == 10000000000000000000000000000
  {
    assert Pow10(7) == 10000000;
    Pow10Add(7, 7);
    Pow10Add(14, 14);
  }

  /**
   * 30! = 265252859812191058636308480000000, the value of PostgreSQL's
   * `factorial(30)`, has 33 digits, so `value % 1` raises InvalidOperation;
   * 10^28 - 1 is the largest integer that still converts.
   */
  lemma PrecisionExamples()
    ensures Normalize(Dec(Decimal(265252859812191058636308480000000, 0))) == Err(InvalidOperation)
    ensures Normalize(Dec(Decimal(9999999999999999999999999999, 0))) == Ok(Int(9999999999999999999999999999))
    ensures Normalize(Dec(Decimal(-10000000000000000000000000000, 0))) == Err(InvalidOperation)
  {
    Pow10Precision();
  }

  /**
   * Whether `json.dumps` can encode the value: it refuses a Decimal (the
   * normalisation does not reach inside lists) and objects of other types.
   */
  predicate Encodable(v: Value)
  {
    match v
    case Dec(_) => false
    case Other(_) => false
    case Array(items) => forall i :: 0 <= i < |items| ==> Encodable(items[i])
    case _ => true
  }

  /**
   * After normalisation only a list or an object of another type can stop
   * `json.dumps`: every other value that converts is encodable.
   */
  lemma NormalizedScalarEncodable(v: Value)
    requires Normalize(v).Ok?
    ensures Encodable(Normalize(v).value) <==> !v.Other? && (v.Array? ==> Encodable(v))
  {
  }
}
