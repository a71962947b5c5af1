/** Shared vocabulary of the services: optional (nullable) values, store and
    remote-call results, request outcomes, HTTP status codes, timestamps and
    the Java string conversions the error messages use. */
module Common {

  /** A Java reference that may be null. */
  datatype Option<+T> = None | Some(value: T)

  /** Result of a repository call: the store either answers or throws. */
  datatype Fallible<+T> = Done(value: T) | Failed

  /** Result of a call to the remote Account service through the declarative
      client: a body, a FeignException carrying an HTTP status, or any other
      exception (a null fallback, a decoding error, ...). */
  datatype Remote<+T> = Ok(value: T) | FeignError(status: int) | OtherError

  /** What an internal call does: return a value, throw one of the
      service's domain exceptions, or throw anything else. */
  datatype Try<+T, +E> = Value(value: T) | Throw(error: E, message: string) | Unexpected

  /** What a handler method does: return a ResponseEntity (status and a body
      that may be null), or throw one of the service's domain exceptions,
      which the framework hands to the exception handler. */
  datatype Outcome<+B, +E> = Response(status: int, body: Option<B>) | Raise(error: E, message: string)

  /** A Bean Validation failure on one field: its name and default message. */
  datatype FieldError = FieldError(field: string, defaultMessage: Option<string>)

  /** `new Date()` and `LocalDateTime.now()`: clock readings, passed in. */
  datatype Date = Date(epochMillis: int)
  datatype LocalDateTime = LocalDateTime(stamp: int)

  datatype AccountType = CASH | CURRENT
  datatype CustomerType = INDIVIDUAL

  // HTTP status codes used by the services
  const OK := 200
  const CREATED := 201
  const NO_CONTENT := 204
  const ALREADY_REPORTED := 208
  const BAD_REQUEST := 400
  const NOT_FOUND := 404
  const EXPECTATION_FAILED := 417
  const INTERNAL_SERVER_ERROR := 500
  const SERVICE_UNAVAILABLE := 503

  /** Bean Validation's @NotBlank: not null and `trim().length() > 0`
      (NotBlankIffTrimmedNonEmpty); put as "some character is above U+0020". */
  predicate NotBlank(s: Option<string>)
  {
    s.Some? && exists i :: 0 <= i < |s.value| && s.value[i] > ' '
  }

  /** The leading characters up to U+0020 dropped: what remains is a suffix
      whose first character, if any, is above U+0020. */
  function TrimLeft(s: string): (r: string)
    ensures |r| <= |s| && r == s[|s| - |r|..]
    ensures forall i :: 0 <= i < |s| - |r| ==> s[i] <= ' '
    ensures r != [] ==> r[0] > ' '
    decreases |s|
  {
    if s == [] then s
    else if s[0] <= ' ' then TrimLeft(s[1..])
    else s
  }

  /** The trailing characters up to U+0020 dropped: what remains is a prefix
      whose last character, if any, is above U+0020. */
  function TrimRight(s: string): (r: string)
    ensures |r| <= |s| && r == s[..|r|]
    ensures forall i :: |r| <= i < |s| ==> s[i] <= ' '
    ensures r != [] ==> r[|r| - 1] > ' '
    decreases |s|
  {
    if s == [] then s
    else if s[|s| - 1] <= ' ' then TrimRight(s[..|s| - 1])
    else s
  }

  /** Java's `String.trim()`: both ends stripped of characters up to U+0020. */
  function Trim(s: string): (r: string)
    ensures |r| <= |s|
  {
    TrimRight(TrimLeft(s))
  }

  /** @NotBlank holds of a string exactly when its trimmed text is not empty. */
  lemma NotBlankIffTrimmedNonEmpty(s: string)
    ensures NotBlank(Some(s)) <==> |Trim(s)| > 0
  {
    var t := TrimLeft(s);
    var r := TrimRight(t);
    if NotBlank(Some(s)) {
      var i :| 0 <= i < |s| && s[i] > ' ';
      assert t != [] && t[0] > ' ';
      assert r != [];
    }
    if |Trim(s)| > 0 {
      assert r[|r| - 1] == t[|r| - 1] == s[|s| - |t| + |r| - 1];
    }
  }

  /** Decimal text of a natural number, as Integer.toString writes it. */
  function NatText(n: nat): (r: string)
    ensures |r| > 0
    ensures forall i :: 0 <= i < |r| ==> '0' <= r[i] <= '9'
    decreases n
  {
    var d := [(n % 10) as char + '0'];
    if n < 10 then d else NatText(n / 10) + d
  }

  /** `"..." + id` for an Integer: the decimal text, or "null". */
  function IdText(id: Option<int>): string
  {
    match id
    case None => "null"
    case Some(n) => if n < 0 then "-" + NatText(-n) else NatText(n)
  }

  /** `s + "..."` for a String: Java writes a null string as "null". */
  function StrText(s: Option<string>): string
  {
    match s
    case None => "null"
    case Some(v) => v
  }
}
