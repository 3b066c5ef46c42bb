/** Shared vocabulary: optional values, results with the errors the Swift code
    throws, and the decimal rendering that string interpolation (`"\(n)"`) uses. */
module Common {

  datatype Option<+T> = None | Some(value: T)

  /** Errors thrown by the code. Most Swift errors here are plain strings
      (`throw "..."`, made an `Error` by a `String: LocalizedError` extension). */
  datatype Error =
    | Message(text: string)        // `throw "<text>"`
    | DecodeFailure                // a JSONDecoder call threw
    | EncodeFailure                // a JSONEncoder call threw
    | Cancelled                    // CancellationError
    | Transport(reason: string)    // a failure reported by the transport or the remote side
    | TaskFailure                  // a ScanTask's own failure (UnreliableAPI.Error)

  datatype Result<+T> = Ok(value: T) | Err(error: Error)

  /** Decimal digit of 0 <= d < 10. */
  function DigitChar(d: nat): (c: char)
    requires d < 10
    ensures '0' <= c <= '9'
  {
    ['0', '1', '2', '3', '4', '5', '6', '7', '8', '9'][d]
  }

  /** Decimal rendering of a natural number, most significant digit first. */
  function NatToString(n: nat): (s: string)
    ensures |s| >= 1
    ensures forall i :: 0 <= i < |s| ==> '0' <= s[i] <= '9'
    decreases n
  {
    if n < 10 then [DigitChar(n)] else NatToString(n / 10) + [DigitChar(n % 10)]
  }

  /** Decimal rendering of an integer, as Swift's string interpolation prints it. */
  function IntToString(i: int): (s: string)
    ensures |s| >= 1
    ensures i < 0 <==> s[0] == '-'
  {
    if i < 0 then "-" + NatToString(-i) else NatToString(i)
  }

  /** Swift's `/` on Int: truncates toward zero (Dafny's `/` is Euclidean). */
  function SwiftDiv(a: int, b: int): (q: int)
    requires b != 0
    ensures a >= 0 && b > 0 ==> q == a / b
  {
    if a >= 0 then (if b > 0 then a / b else -(a / -b))
    else (if b > 0 then -((-a) / b) else (-a) / (-b))
  }

  /** Swift's `%` on Int: the remainder takes the sign of the dividend and is
      smaller in magnitude than the divisor. */
  function SwiftRem(a: int, b: int): (r: int)
    requires b != 0
    ensures a >= 0 ==> 0 <= r < (if b < 0 then -b else b)
    ensures a < 0 ==> -(if b < 0 then -b else b) < r <= 0
  {
    var m := if b < 0 then -b else b;
    if a >= 0 then a % m else -((-a) % m)
  }
}
