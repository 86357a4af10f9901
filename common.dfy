/** Identifiers, failures and call outcomes shared by every part of the gateway model. */
module Common {

  predicate IsHexDigit(c: char) {
    '0' <= c <= '9' || 'a' <= c <= 'f'
  }

  predicate IsHex32(s: string) {
    |s| == 32 && forall i :: 0 <= i < |s| ==> IsHexDigit(s[i])
  }

  /** A uuid, represented by its `.hex` rendering: 32 lower-case hexadecimal digits.
      The rendering is a bijection, so two uuids are equal exactly when their hex strings are. */
  type Uuid = s: string | IsHex32(s) witness "00000000000000000000000000000000"

  datatype Option<+T> = None | Some(value: T)

  /** An exception as the gateway sees it: FastAPI's HTTPException, or any other exception
      (a transport error, a validation error, NotImplementedError, ...). */
  datatype Failure =
    | HttpException(status: int, detail: string)
    | OtherException(name: string, message: string)

  /** What one call produced: its value, or the exception it raised. */
  datatype Outcome<+T> = Ok(value: T) | Err(failure: Failure)

  const HTTP_200: int := 200
  const HTTP_400: int := 400
  const HTTP_500_INTERNAL_SERVER_ERROR: int := 500
  const HTTP_502_BAD_GATEWAY: int := 502
  const HTTP_503_SERVICE_UNAVAILABLE: int := 503

  function DigitChar(d: nat): (c: char)
    requires d < 10
    ensures '0' <= c <= '9'
  {
    ['0', '1', '2', '3', '4', '5', '6', '7', '8', '9'][d]
  }

  /** Decimal rendering of a natural number, as Python's `str(n)`. */
  function NatToString(n: nat): (s: string)
    ensures |s| > 0
    ensures forall i :: 0 <= i < |s| ==> '0' <= s[i] <= '9'
    decreases n
  {
    if n < 10 then [DigitChar(n)] else NatToString(n / 10) + [DigitChar(n % 10)]
  }

  function IntToString(n: int): (s: string)
    ensures |s| > 0
  {
    if n >= 0 then NatToString(n) else "-" + NatToString(-n)
  }

  /** `str(exception)`: Starlette renders an HTTPException as "<status>: <detail>";
      any other exception renders as its message, which may be empty. */
  function ExceptionText(f: Failure): (s: string)
    ensures f.HttpException? ==> s != []
    ensures f.OtherException? ==> s == f.message
  {
    match f
    case HttpException(status, detail) => IntToString(status) + ": " + detail
    case OtherException(_, message) => message
  }

  /** The idiom `if isinstance(e, HTTPException): raise e` followed by
      `raise HTTPException(503, detail)`: an HTTP error passes through unchanged, any other
      error becomes a 503 with the call site's fixed detail. */
  function PassThroughOr503(f: Failure, detail: string): (r: Failure)
    ensures r.HttpException?
    ensures f.HttpException? ==> r == f
    ensures !f.HttpException? ==> r == HttpException(HTTP_503_SERVICE_UNAVAILABLE, detail)
  {
    if f.HttpException? then f else HttpException(HTTP_503_SERVICE_UNAVAILABLE, detail)
  }
}
