/**
 * The SDK's exception type (src/NuvoPaymentException.php): an exception that
 * also carries an HTTP status and an array of error details, and can render
 * itself as a four-key error array.
 */
module PaymentException {
  import opened Wrappers
  import opened PhpArrays

  /** The state a `NuvoPaymentException` holds; the chained previous exception is not modelled. */
  datatype NuvoPaymentException = NuvoPaymentException(
    message: string, httpStatus: int, errorDetails: seq<Entry>, code: int)

  /** The constructor's defaults. */
  const DefaultMessage: string := ""
  const DefaultHttpStatus: int := 0
  const DefaultCode: int := 0

  /** `new NuvoPaymentException($message, $httpStatus, $errorDetails, $code)`. */
  function New(message: string, httpStatus: int, errorDetails: seq<Entry>, code: int): NuvoPaymentException
  {
    NuvoPaymentException(message, httpStatus, errorDetails, code)
  }

  /** `new NuvoPaymentException()`. */
  function NewWithDefaults(): NuvoPaymentException
  {
    New(DefaultMessage, DefaultHttpStatus, [], DefaultCode)
  }

  function GetMessage(e: NuvoPaymentException): string
  {
    e.message
  }

  function GetHttpStatus(e: NuvoPaymentException): int
  {
    e.httpStatus
  }

  function GetErrorDetails(e: NuvoPaymentException): seq<Entry>
  {
    e.errorDetails
  }

  /** `toArray()`: exactly the keys `error`, `status`, `message`, `details`, in that order. */
  function ToArray(e: NuvoPaymentException): (r: seq<Entry>)
    ensures |r| == 4 && UniqueKeys(r)
    ensures r[0].0 == StrKey("error") && r[1].0 == StrKey("status")
    ensures r[2].0 == StrKey("message") && r[3].0 == StrKey("details")
    ensures Lookup(r, StrKey("error")) == Some(Bool(true))
    ensures Lookup(r, StrKey("status")) == Some(Int(GetHttpStatus(e)))
    ensures Lookup(r, StrKey("message")) == Some(Str(GetMessage(e)))
    ensures Lookup(r, StrKey("details")) == Some(Arr(GetErrorDetails(e)))
  {
    var r := [ (StrKey("error"), Bool(true)),
               (StrKey("status"), Int(e.httpStatus)),
               (StrKey("message"), Str(e.message)),
               (StrKey("details"), Arr(e.errorDetails)) ];
    LookupFirst(r[1..], StrKey("status"));
    LookupFirst(r[2..], StrKey("message"));
    LookupFirst(r[3..], StrKey("details"));
    assert r[1..][1..] == r[2..];
    assert r[2..][1..] == r[3..];
    r
  }

  /**
   * Reads an error array back: status, message and details, when the array has
   * `error => true` and those three keys with values of the right kind.
   */
  function FromArray(es: seq<Entry>): (r: Option<(int, string, seq<Entry>)>)
    ensures r.Some? ==> Lookup(es, StrKey("error")) == Some(Bool(true))
  {
    match (Lookup(es, StrKey("error")), Lookup(es, StrKey("status")),
           Lookup(es, StrKey("message")), Lookup(es, StrKey("details")))
    case (Some(Bool(true)), Some(Int(s)), Some(Str(m)), Some(Arr(d))) => Some((s, m, d))
    case _ => None
  }

  /** The getters return what the constructor was given. */
  lemma GettersReturnConstructorArguments(message: string, httpStatus: int, errorDetails: seq<Entry>, code: int)
    ensures GetMessage(New(message, httpStatus, errorDetails, code)) == message
    ensures GetHttpStatus(New(message, httpStatus, errorDetails, code)) == httpStatus
    ensures GetErrorDetails(New(message, httpStatus, errorDetails, code)) == errorDetails
  {
  }

  /** Without arguments the exception has an empty message, status 0 and no details. */
  lemma ConstructorDefaults()
    ensures GetMessage(NewWithDefaults()) == ""
    ensures GetHttpStatus(NewWithDefaults()) == 0
    ensures GetErrorDetails(NewWithDefaults()) == []
    ensures FromArray(ToArray(NewWithDefaults())) == Some((0, "", []))
  {
  }

  /** `toArray` loses nothing but the code: status, message and details read back as stored. */
  lemma ToArrayRoundTrip(e: NuvoPaymentException)
    ensures FromArray(ToArray(e)) == Some((GetHttpStatus(e), GetMessage(e), GetErrorDetails(e)))
  {
  }
}
