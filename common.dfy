/** Values shared by every part of the model: optional values, the loosely typed
    values that database rows and JSON dictionaries hold, the exceptions the
    Python code raises, and the decimal rendering of integers that f-strings use. */
module Common {

  datatype Option<+T> = None | Some(value: T)

  /** Timestamps (datetime, CURRENT_TIMESTAMP, isoformat) are kept abstract:
      a point of a monotone clock. */
  type Timestamp = nat

  /** A cell of a database row, or a value of a JSON-ready dictionary. */
  datatype Value =
    | VNull
    | VInt(i: int)
    | VStr(s: string)
    | VBool(b: bool)
    | VTime(t: Timestamp)

  /** The exceptions that cross the modelled code. */
  datatype Error =
    | ValueError(message: string)             // Python ValueError
    | HttpError(status: int, detail: string)  // fastapi.HTTPException
    | DriverError(message: string)            // any exception raised by the database driver
    | PoolError(message: string)              // psycopg2.pool.PoolError

  /** A value, or the exception raised instead of producing it. */
  datatype Result<+T> = Success(value: T) | Failure(error: Error)

  /** How a block of code ended: normally, or by raising an exception. */
  datatype Outcome = Normal | Raised(error: Error)

  /** `str(e)` for the exceptions that carry a plain message. */
  function Text(e: Error): string
    requires !e.HttpError?
  {
    e.message
  }

  function DigitChar(d: nat): char
    requires d < 10
  {
    "0123456789"[d]
  }

  predicate IsDigit(c: char) {
    '0' <= c <= '9'
  }

  /** The decimal digits of a natural number, most significant first. */
  function NatDigits(n: nat): (s: string)
    ensures |s| >= 1
    ensures forall i :: 0 <= i < |s| ==> IsDigit(s[i])
  {
    if n < 10 then [DigitChar(n)] else NatDigits(n / 10) + [DigitChar(n % 10)]
  }

  /** `str(n)` / `f"{n}"` for a Python int. */
  function Decimal(n: int): string {
    if n < 0 then "-" + NatDigits(-n) else NatDigits(n)
  }

  function DigitValue(c: char): nat
    requires IsDigit(c)
  {
    c as int - '0' as int
  }

  /** The value of a string of decimal digits, read left to right. */
  function ParseDigits(s: string): nat
    requires forall i :: 0 <= i < |s| ==> IsDigit(s[i])
  {
    if s == [] then 0
    else ParseDigits(s[..|s| - 1]) * 10 + DigitValue(s[|s| - 1])
  }

  /** Reading the digits back gives the number: the rendering loses nothing. */
  lemma {:induction false} DigitsRoundTrip(n: nat)
    ensures ParseDigits(NatDigits(n)) == n
  {
    var s := NatDigits(n);
    if n >= 10 {
      DigitsRoundTrip(n / 10);
      assert s[..|s| - 1] == NatDigits(n / 10);
    }
  }

  predicate AllDigits(s: string) {
    forall i :: 0 <= i < |s| ==> IsDigit(s[i])
  }

  /** `int(s)` for the text `Decimal` produces: an optional minus sign followed
      by at least one digit; None where Python raises ValueError. */
  function ParseDecimal(s: string): Option<int> {
    if |s| == 0 then None
    else if s[0] == '-' then
      if |s| >= 2 && AllDigits(s[1..]) then Some(-(ParseDigits(s[1..]) as int)) else None
    else if AllDigits(s) then Some(ParseDigits(s))
    else None
  }

  /** The digits of a natural number read back as that number, unsigned. */
  lemma {:induction false} NatDigitsParse(n: nat)
    ensures ParseDecimal(NatDigits(n)) == Some(n)
  {
    var d := NatDigits(n);
    DigitsRoundTrip(n);
    assert AllDigits(d);
    assert d[0] != '-';
  }

  /** A minus sign before digits reads as the negated value of the digits. */
  lemma {:induction false} SignedDigitsParse(d: string)
    requires |d| >= 1 && AllDigits(d)
    ensures ParseDecimal("-" + d) == Some(-(ParseDigits(d) as int))
  {
    var s := "-" + d;
    assert s[1..] == d;
  }

  /** A minus sign before the digits of a positive number reads back as its negation. */
  lemma {:induction false} NegativeDecimalParse(m: nat)
    requires m >= 1
    ensures ParseDecimal("-" + NatDigits(m)) == Some(-(m as int))
  {
    SignedDigitsParse(NatDigits(m));
    DigitsRoundTrip(m);
  }

  /** The text of an integer reads back as that integer. */
  lemma {:induction false} DecimalRoundTrip(n: int)
    ensures ParseDecimal(Decimal(n)) == Some(n)
  {
    if n < 0 {
      assert Decimal(n) == "-" + NatDigits(-n);
      NegativeDecimalParse(-n);
    } else {
      assert Decimal(n) == NatDigits(n);
      NatDigitsParse(n);
    }
  }

  /** The text of an integer holds only a minus sign and digits. */
  lemma {:induction false} DecimalChars(n: int)
    ensures forall i :: 0 <= i < |Decimal(n)| ==> Decimal(n)[i] == '-' || IsDigit(Decimal(n)[i])
  {
    if n < 0 {
      assert Decimal(n) == "-" + NatDigits(-n);
    }
  }
}
