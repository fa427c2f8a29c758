/** Shared vocabulary of the gallery model: optional values, results carrying an
    error message, bytes, decimal rendering of numbers and the HTTP statuses the
    request handlers answer with. */
module Common {

  datatype Option<T> = None | Some(value: T)

  /** A computation that either yields a value or fails with an error message,
      standing for a thrown JavaScript `Error`. */
  datatype Result<T> = Success(value: T) | Failure(error: string)

  newtype byte = x: int | 0 <= x < 256

  type Bytes = seq<byte>

  /** The HTTP status classes the handlers answer with. */
  datatype Status =
    | Ok            // 200
    | Created       // 201
    | Accepted      // 202
    | BadRequest    // 400
    | Forbidden     // 403
    | NotFound      // 404
    | Gone          // 410
    | ServerError   // 500

  function Code(s: Status): nat
  {
    match s
    case Ok => 200
    case Created => 201
    case Accepted => 202
    case BadRequest => 400
    case Forbidden => 403
    case NotFound => 404
    case Gone => 410
    case ServerError => 500
  }

  predicate IsDigit(c: char)
  {
    '0' <= c <= '9'
  }

  predicate AllDigits(s: string)
  {
    forall i :: 0 <= i < |s| ==> IsDigit(s[i])
  }

  function DigitChar(d: nat): (c: char)
    requires d < 10
    ensures IsDigit(c) && (c as int) - ('0' as int) == d
  {
    (('0' as int) + d) as char
  }

  /** Decimal rendering of a natural number, as JavaScript's `String(n)` gives it
      for a non-negative integer. */
  function NatToDecimal(n: nat): (s: string)
    ensures |s| >= 1 && AllDigits(s)
    ensures s[0] == '0' ==> n == 0 && s == "0"
    decreases n
  {
    if n < 10 then [DigitChar(n)] else NatToDecimal(n / 10) + [DigitChar(n % 10)]
  }

  /** Decimal rendering of an integer: a leading minus sign for negatives. */
  function IntToDecimal(i: int): (s: string)
    ensures |s| >= 1
    ensures i < 0 <==> s[0] == '-'
  {
    if i < 0 then "-" + NatToDecimal(-i) else NatToDecimal(i)
  }

  /** The value a string of decimal digits denotes; the reference against which
      NatToDecimal is checked. */
  function DecimalValue(s: string): nat
    requires AllDigits(s)
  {
    if s == [] then 0
    else DecimalValue(s[..|s| - 1]) * 10 + ((s[|s| - 1] as int) - ('0' as int))
  }

  lemma {:induction false} DecimalRoundTrip(n: nat)
    ensures DecimalValue(NatToDecimal(n)) == n
    decreases n
  {
    if n >= 10 {
      var s := NatToDecimal(n);
      DecimalRoundTrip(n / 10);
      assert s[..|s| - 1] == NatToDecimal(n / 10);
    }
  }

  /** Distinct numbers render differently. */
  lemma DecimalInjective(m: nat, n: nat)
    requires NatToDecimal(m) == NatToDecimal(n)
    ensures m == n
  {
    DecimalRoundTrip(m);
    DecimalRoundTrip(n);
  }
}
