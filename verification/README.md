# nuvo-payment-sdk: the authenticated-request layer in Dafny

This project models the core of the Nuvo payment SDK, a small PHP client that
sits on top of the Guzzle HTTP client. The model covers three parts:

- **The gateway (`HttpClient`).** It keeps the base URL, with trailing slashes
  removed, and the client id and secret. On each request it merges its own
  headers into the caller's options with `array_merge_recursive`: `Accept`,
  `Authorization: Bearer <secret>`, `X-Client-ID` and `X-Provider`, which
  defaults to `stripe`. It then hands the request to the transport and maps the
  outcome:
  - A response is JSON-decoded, whatever its status.
  - A `RequestException` becomes `['error' => true, 'status' => …, 'message' => …]`.
  - Any other exception is not caught.
- **The payment resource.** `create` POSTs a four-key payload under the `json`
  option to `/api/v1/payments`. `find` GETs `/api/v1/payments/<id>`. Both
  return the gateway's result unchanged.
- **`NuvoPaymentException`.** A record with getters and `toArray`.

Values are PHP values (`PhpArrays.Value`). A PHP array is an ordered sequence
of `(key, value)` entries, looked up by first match. `array_merge_recursive`
follows PHP's own algorithm (`ArrayMerge`). When a string key is present on
both sides, neither value replaces the other: both are kept in a list. So a
caller who passes `headers['X-Provider'] => 'paypal'` sends `X-Provider` with
the two values `paypal, paypal`. A caller who passes its own `Authorization`
header adds a second value to the gateway's header. The gateway's value is
still sent, and it comes last.

The network is a parameter `send: Call -> Transport`. A `Call` records the
base URI, the timeout, the verb, the URI and the merged options. A `Transport`
is one of three outcomes: `Responded(response)`,
`RequestFailed(optional response, message)` or `OtherFailure(reason)`.
`json_decode($body, true)` is a parameter `decode: string -> Value`. The gateway
does not read the environment: the base URL, the client id and the secret are
arguments of `HttpClient.NewGateway`.

Three behaviours of the code that a reader might not expect:
- A response whose body is not valid JSON is returned as whatever `json_decode`
  yields, whatever the status (src/HttpClient.php:38). It is not turned into a
  500 failure.
- Only `RequestException` is caught (src/HttpClient.php:39). Other exceptions
  propagate as `Propagated`. Whether a given network failure is a `RequestException` is
  decided by the transport. In Guzzle 7, `ConnectException` is not one.
- A caller's `X-Provider` does not replace the default. It is sent twice,
  because the headers are merged with `array_merge_recursive`
  (src/HttpClient.php:30). Headers are single-valued only when the caller
  passes no headers of its own.

## Model

| member | source | states |
|---|---|---|
| `HttpClient.RTrimSlashes` | src/HttpClient.php:17 | the trimmed URL has no trailing `/`, is a prefix of the original, and only `/` characters follow it in the original |
| `HttpClient.RTrimSlashesIdempotent` | src/HttpClient.php:17 | trimming the trimmed base URL again changes nothing |
| `HttpClient.RTrimSlashesUnique` | src/HttpClient.php:17 | exactly one prefix satisfies that description, and `rtrim` returns it |
| `HttpClient.NewGateway` | src/HttpClient.php:15-25 | the stored base URL is the configured one without trailing slashes; the client id and secret are stored as given |
| `HttpClient.ProviderHeader` | src/HttpClient.php:35 | the computed `X-Provider` is the caller's `headers['X-Provider']` when that is set and not null, and `"stripe"` otherwise |
| `HttpClient.NoCallerHeaders` | src/HttpClient.php:30-36 | without caller headers, the `headers` option holds exactly four headers with one value each: `Accept: application/json`, `Authorization: Bearer <secret>`, `X-Client-ID: <id>` and `X-Provider: stripe`; these do not depend on the verb, the URI or the other options |
| `HttpClient.CredentialsSentInFull` | src/HttpClient.php:30-34 | for every set of options, `Accept`, `Authorization` and `X-Client-ID` are sent with exactly the caller's own values for that header, if any, followed by the gateway's value taken from the stored credentials |
| `HttpClient.CredentialsAlwaysSent` | src/HttpClient.php:30-34 | for every set of options, `Accept`, `Authorization` and `X-Client-ID` are sent, and their last value is the gateway's own |
| `HttpClient.CallerHeaderKept` | src/HttpClient.php:30-34 | a caller's own non-array `Accept`, `Authorization` or `X-Client-ID` value is not replaced; the header is sent with two values, the caller's first and the gateway's second |
| `HttpClient.ProviderHeaderSent` | src/HttpClient.php:30-35 | if the caller's headers lack `X-Provider`, it is sent as `stripe` alone; a caller's non-null scalar value `p` (a string, say) is sent as `p, p`; a caller's `null` is sent as `null, stripe` |
| `HttpClient.ProviderValueSent` | src/HttpClient.php:30-35 | when the caller's `X-Provider` is absent or not an array, the values sent are the caller's, if any, followed by the computed provider |
| `HttpClient.HeaderAfterMerge` | src/HttpClient.php:30 | merging in a header with one non-array value keeps the values already held under that name, in order, and adds the new value after them |
| `HttpClient.OtherOptionsUnchanged` | src/HttpClient.php:30 | every option other than `headers`, such as `json`, reaches the transport with its value unchanged |
| `HttpClient.ErrorResult` | src/HttpClient.php:41-45 | the error array has exactly three distinct keys: `error` is true, and `status` and `message` hold the given values |
| `HttpClient.Normalise` | src/HttpClient.php:38-45 | only a non-`RequestException` failure propagates; a response becomes `decode(body)` whatever its status; a `RequestException` becomes the error array with the response's status and raw body, or 500 and the exception text when there is no response |
| `HttpClient.StatusIgnored` | src/HttpClient.php:38 | a request whose transport answers with any status returns the decoded body, with no error wrapping |
| `HttpClient.ErrorBodyNotDecoded` | src/HttpClient.php:39-44 | on the exception paths the result does not depend on the JSON decoder: the body is kept as raw text |
| `ArrayMerge.MergeFromLookup` | src/HttpClient.php:30 | after merging, each string key holds the key-wise combination of its old and incoming values: the old value if none comes in, the incoming value if there was none, otherwise an array that keeps both |
| `ArrayMerge.ArrayMergeRecursiveLookup` | src/HttpClient.php:30 | `array_merge_recursive(first, second)` agrees key by key with that combination |
| `ArrayMerge.ArrayMergeRecursiveUnique` | src/HttpClient.php:30 | the merged options never hold a key twice |
| `ArrayMerge.CopyFirst` | src/HttpClient.php:30 | the caller's options, when all their keys are strings, are copied unchanged and in order before the headers are merged in |
| `ArrayMerge.CombineKeepsBoth` | src/HttpClient.php:30 | on a key collision with an incoming non-array value, the result lists the held value(s) followed by the incoming one |
| `Payment.CreatePayload` | src/Payment.php:19-24 | the payload has exactly the keys `amount`, `currency`, `metadata` and `redirect_urls`, in that order, holding the arguments; `redirectUrls` is stored under `redirect_urls` |
| `Payment.CreateSends` | src/Payment.php:17-28 | for every amount and currency, with no validation, `create` sends one POST to exactly `/api/v1/payments`; the options are the payload under `json` and the four default headers; the gateway's result is returned unchanged |
| `Payment.CreateDefaults` | src/Payment.php:17 | `create($amount)` sends the payload `amount`, `currency: USD`, empty `metadata`, empty `redirect_urls` with the default headers, and returns the gateway's result |
| `Payment.FindSends` | src/Payment.php:34-37 | `find` sends one GET to `/api/v1/payments/` followed by the id verbatim; its only option is the default headers, so there is no `json` body; the gateway's result is returned unchanged |
| `Payment.CreateUnauthorized` | src/Payment.php:17-28 | a create rejected with a 401 `RequestException` returns `error: true`, `status: 401` and the raw body as `message` |
| `Payment.OneOptionMerged` | src/Payment.php:26-28 | merging the gateway headers into the one-key `json` options yields `json` followed by `headers` holding the four default headers |
| `PaymentException.ToArray` | src/NuvoPaymentException.php:32-40 | the array has exactly the keys `error`, `status`, `message` and `details`, in that order; `error` is always true, and the other three equal the stored status, message and details |
| `PaymentException.ToArrayRoundTrip` | src/NuvoPaymentException.php:32-40 | reading the array back recovers the status, message and details; only the code is lost |
| `PaymentException.GettersReturnConstructorArguments` | src/NuvoPaymentException.php:10-30 | `getMessage`, `getHttpStatus` and `getErrorDetails` return what the constructor was given |
| `PaymentException.ConstructorDefaults` | src/NuvoPaymentException.php:10-20 | with no arguments: message `''`, status 0, no details; `toArray` reads back as `(0, '', [])` |

## Left out

- The `NuvoPayment` facade (src/NuvoPayment.php) is left out. Its `.env` detection and Dotenv loading are configuration I/O, and it does nothing else but construct a `Payment`.
- Reads of `$_ENV` are left out. The base URL, client id and secret are arguments. Missing variables are not modelled.
- The Guzzle transport is left out: network dispatch, the effect of the 10-second timeout (only its value is recorded in each `Call`), and resolving the URI against `base_uri` (section 5.2 of RFC 3986). All of it is the `send` parameter.
- How Guzzle treats header names is left out: it is case-insensitive about them, and non-string header values are sent as Guzzle renders them. `SentHeader` reports the PHP values the headers option holds.
- JSON encoding of the `json` option and JSON decoding are left out. Decoding is the uninterpreted parameter `decode`.
- Float semantics of `amount` are left out. It is an opaque `real` that is passed through.
- PHP's conversion of numeric string keys such as `"8"` to integer keys is left out. Keys stay as they are written.
- Objects and references inside `array_merge_recursive` are left out, and so is its "Recursion detected" error. The SDK's arrays contain neither.
- Integers are unbounded. The saturation of PHP's next free index at `PHP_INT_MAX` is not modelled. The next index follows PHP 8.2 and earlier; PHP 8.3 differs only when every integer key is negative.
- The exception's chained `previous` throwable is left out. Nothing in the core throws a `NuvoPaymentException`.
- tests/PaymentTest.php is not evidence of behaviour. It passes a mock client to `Payment::__construct`, which takes no arguments, so the mock is ignored. `Payment.CreateUnauthorized` restates its 401 scenario on the model.
- Repeating `find` gives the same result when the transport answers the same. This follows because `Find` is a function; no lemma states it.
- HttpClient.ProviderHeaderSent: states the sent values only when the caller's `X-Provider` is absent or not an array. An array value is merged recursively with itself, and no lemma describes that case.
