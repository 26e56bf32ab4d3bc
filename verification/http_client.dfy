/**
 * The authenticated-request gateway (src/HttpClient.php): it keeps the base URL
 * and the client credentials, adds its headers to every request's options,
 * hands the request to the transport and maps the transport's outcome to the
 * value the SDK returns.
 *
 * The transport (Guzzle: dispatch, timeout, resolving the URI against the base
 * URI) is the parameter `send`, and `json_decode($body, true)` is the parameter
 * `decode`; the model says which call reaches `send` and what is made of its answer.
 */
module HttpClient {
  import opened Wrappers
  import opened PhpArrays
  import opened ArrayMerge

  /** What the gateway keeps from its configuration. */
  datatype Gateway = Gateway(baseUrl: string, clientId: string, clientSecret: string)

  /** The request timeout the transport is configured with, in seconds. */
  const TimeoutSeconds: real := 10.0

  /** The `X-Provider` header value when the caller gives none. */
  const DefaultProvider: string := "stripe"

  /** One request as the transport receives it. */
  datatype Call = Call(baseUri: string, timeout: real, verb: string, uri: string, options: seq<Entry>)

  /** An HTTP response: status code and body text. */
  datatype Response = Response(status: int, body: string)

  /** What the transport does with a call. */
  datatype Transport =
    | Responded(response: Response)                              // a response is returned
    | RequestFailed(failed: Option<Response>, message: string)  // a RequestException is thrown
    | OtherFailure(reason: string)                               // any other exception is thrown

  /** What `request` does: return a value, or let an exception through. */
  datatype Outcome = Returned(value: Value) | Propagated(reason: string)

  // ---------------------------------------------------------------------------
  // Construction
  // ---------------------------------------------------------------------------

  /** `rtrim($s, '/')`: the string without its trailing slashes. */
  function RTrimSlashes(s: string): (r: string)
    ensures r == [] || r[|r| - 1] != '/'
    ensures |r| <= |s| && s[..|r|] == r
    ensures forall j :: |r| <= j < |s| ==> s[j] == '/'
    decreases |s|
  {
    if |s| > 0 && s[|s| - 1] == '/' then RTrimSlashes(s[..|s| - 1]) else s
  }

  /** Trimming a trimmed URL changes nothing. */
  lemma RTrimSlashesIdempotent(s: string)
    ensures RTrimSlashes(RTrimSlashes(s)) == RTrimSlashes(s)
  {
  }

  /**
   * The trimmed string is the only prefix that has no trailing slash and is
   * followed by nothing but slashes.
   */
  lemma RTrimSlashesUnique(s: string, r: string)
    requires r == [] || r[|r| - 1] != '/'
    requires |r| <= |s| && s[..|r|] == r
    requires forall j :: |r| <= j < |s| ==> s[j] == '/'
    ensures RTrimSlashes(s) == r
    decreases |s|
  {
  }

  /** The constructor: the base URL loses its trailing slashes, the credentials are kept as given. */
  function NewGateway(rawBaseUrl: string, clientId: string, clientSecret: string): (g: Gateway)
    ensures g.baseUrl == [] || g.baseUrl[|g.baseUrl| - 1] != '/'
    ensures |g.baseUrl| <= |rawBaseUrl| && rawBaseUrl[..|g.baseUrl|] == g.baseUrl
    ensures forall j :: |g.baseUrl| <= j < |rawBaseUrl| ==> rawBaseUrl[j] == '/'
    ensures g.clientId == clientId && g.clientSecret == clientSecret
  {
    Gateway(RTrimSlashes(rawBaseUrl), clientId, clientSecret)
  }

  // ---------------------------------------------------------------------------
  // Headers
  // ---------------------------------------------------------------------------

  /** `$options['headers'][$name]`, present only when `headers` is an array holding `name`. */
  function CallerHeader(options: seq<Entry>, name: string): (r: Option<Value>)
    ensures r.Some? ==> exists h :: Lookup(options, StrKey("headers")) == Some(Arr(h))
                                    && Lookup(h, StrKey(name)) == r
  {
    match Lookup(options, StrKey("headers"))
    case Some(Arr(h)) => Lookup(h, StrKey(name))
    case _ => None
  }

  /** `$options['headers']['X-Provider'] ?? 'stripe'`. */
  function ProviderHeader(options: seq<Entry>): (r: Value)
    ensures r != Null
    ensures CallerHeader(options, "X-Provider") in {None, Some(Null)} ==> r == Str(DefaultProvider)
    ensures CallerHeader(options, "X-Provider") !in {None, Some(Null)} ==> CallerHeader(options, "X-Provider") == Some(r)
  {
    match CallerHeader(options, "X-Provider")
    case Some(v) => if v != Null then v else Str(DefaultProvider)
    case None => Str(DefaultProvider)
  }

  /** The header array the gateway merges into the caller's options. */
  function GatewayHeaders(g: Gateway, options: seq<Entry>): seq<Entry>
  {
    [ (StrKey("Accept"), Str("application/json")),
      (StrKey("Authorization"), Str("Bearer " + g.clientSecret)),
      (StrKey("X-Client-ID"), Str(g.clientId)),
      (StrKey("X-Provider"), ProviderHeader(options)) ]
  }

  /** The four headers a request without caller headers carries. */
  function DefaultHeaders(g: Gateway): seq<Entry>
  {
    [ (StrKey("Accept"), Str("application/json")),
      (StrKey("Authorization"), Str("Bearer " + g.clientSecret)),
      (StrKey("X-Client-ID"), Str(g.clientId)),
      (StrKey("X-Provider"), Str("stripe")) ]
  }

  /** The options the transport receives: the caller's, merged recursively with the gateway's headers. */
  function OutgoingOptions(g: Gateway, options: seq<Entry>): seq<Entry>
  {
    ArrayMergeRecursive(options, [(StrKey("headers"), Arr(GatewayHeaders(g, options)))])
  }

  /** The call `request($method, $uri, $options)` hands to the transport. */
  function OutgoingCall(g: Gateway, verb: string, uri: string, options: seq<Entry>): Call
  {
    Call(g.baseUrl, TimeoutSeconds, verb, uri, OutgoingOptions(g, options))
  }

  /** The values a header option stands for: an array lists several, anything else is one. */
  function HeaderValues(v: Value): seq<Value>
  {
    if v.Arr? then ValuesOf(v.entries) else [v]
  }

  /** The values sent for header `name` in a call, if the call has that header. */
  function SentHeader(c: Call, name: string): Option<seq<Value>>
  {
    match Lookup(c.options, StrKey("headers"))
    case Some(Arr(h)) =>
      (match Lookup(h, StrKey(name))
       case Some(v) => Some(HeaderValues(v))
       case None => None)
    case _ => None
  }

  // ---------------------------------------------------------------------------
  // Result mapping
  // ---------------------------------------------------------------------------

  /** `['error' => true, 'status' => $status, 'message' => $message]`. */
  function ErrorResult(status: int, message: string): (r: seq<Entry>)
    ensures |r| == 3 && UniqueKeys(r)
    ensures Lookup(r, StrKey("error")) == Some(Bool(true))
    ensures Lookup(r, StrKey("status")) == Some(Int(status))
    ensures Lookup(r, StrKey("message")) == Some(Str(message))
  {
    var r := [ (StrKey("error"), Bool(true)),
               (StrKey("status"), Int(status)),
               (StrKey("message"), Str(message)) ];
    LookupFirst(r[1..], StrKey("status"));
    LookupFirst(r[2..], StrKey("message"));
    assert r[1..][1..] == r[2..];
    r
  }

  /**
   * The body of `request` after the transport call: a response is decoded
   * whatever its status; a RequestException becomes an error array carrying the
   * response's status and raw body, or 500 and the exception text when there is
   * no response; any other exception is not caught.
   */
  function Normalise(t: Transport, decode: string -> Value): (r: Outcome)
    ensures r.Propagated? <==> t.OtherFailure?
    ensures t.OtherFailure? ==> r.reason == t.reason
    ensures t.Responded? ==> r.value == decode(t.response.body)
    ensures t.RequestFailed? ==>
              && r.value.Arr?
              && Lookup(r.value.entries, StrKey("error")) == Some(Bool(true))
              && Lookup(r.value.entries, StrKey("status")) ==
                   Some(Int(if t.failed.Some? then t.failed.value.status else 500))
              && Lookup(r.value.entries, StrKey("message")) ==
                   Some(Str(if t.failed.Some? then t.failed.value.body else t.message))
              && |r.value.entries| == 3
  {
    match t
    case Responded(resp) => Returned(decode(resp.body))
    case RequestFailed(failed, message) =>
      (match failed
       case Some(resp) => Returned(Arr(ErrorResult(resp.status, resp.body)))
       case None => Returned(Arr(ErrorResult(500, message))))
    case OtherFailure(reason) => Propagated(reason)
  }

  /** `HttpClient::request`: one call to the transport, its outcome normalised. */
  function Request(g: Gateway, verb: string, uri: string, options: seq<Entry>,
                   send: Call -> Transport, decode: string -> Value): Outcome
  {
    Normalise(send(OutgoingCall(g, verb, uri, options)), decode)
  }

  // ---------------------------------------------------------------------------
  // What reaches the transport
  // ---------------------------------------------------------------------------

  /** The gateway's own header array: four distinct names and their values. */
  lemma GatewayHeadersLookup(g: Gateway, options: seq<Entry>)
    ensures UniqueKeys(GatewayHeaders(g, options))
    ensures Lookup(GatewayHeaders(g, options), StrKey("Accept")) == Some(Str("application/json"))
    ensures Lookup(GatewayHeaders(g, options), StrKey("Authorization")) == Some(Str("Bearer " + g.clientSecret))
    ensures Lookup(GatewayHeaders(g, options), StrKey("X-Client-ID")) == Some(Str(g.clientId))
    ensures Lookup(GatewayHeaders(g, options), StrKey("X-Provider")) == Some(ProviderHeader(options))
  {
    var h := GatewayHeaders(g, options);
    LookupFirst(h[1..], StrKey("Authorization"));
    LookupFirst(h[2..], StrKey("X-Client-ID"));
    LookupFirst(h[3..], StrKey("X-Provider"));
    assert h[1..][1..] == h[2..];
    assert h[2..][1..] == h[3..];
  }

  /** The `headers` option after the merge, in terms of the caller's `headers` option. */
  lemma OutgoingHeadersOption(g: Gateway, options: seq<Entry>)
    requires UniqueKeys(options)
    ensures Lookup(OutgoingOptions(g, options), StrKey("headers")) ==
              match Lookup(options, StrKey("headers"))
              case None => Some(Arr(GatewayHeaders(g, options)))
              case Some(d) => Some(Arr(MergeFrom(AsArray(d), GatewayHeaders(g, options), 0)))
  {
    ArrayMergeRecursiveLookup(options, [(StrKey("headers"), Arr(GatewayHeaders(g, options)))], "headers");
  }

  /** The value the gateway itself gives each of the three headers it fixes. */
  function FixedHeader(g: Gateway, name: string): string
  {
    if name == "Accept" then "application/json"
    else if name == "Authorization" then "Bearer " + g.clientSecret
    else g.clientId
  }

  /**
   * Where the caller's headers array holds one of the fixed headers too, that
   * header is sent with both values, the caller's first: the caller cannot
   * replace it, but can add to it.
   */
  lemma CallerHeaderKept(g: Gateway, verb: string, uri: string, options: seq<Entry>,
                         h: seq<Entry>, name: string, callerValue: Value)
    requires UniqueKeys(options)
    requires Lookup(options, StrKey("headers")) == Some(Arr(h))
    requires Lookup(h, StrKey(name)) == Some(callerValue) && !callerValue.Arr?
    requires name in {"Accept", "Authorization", "X-Client-ID"}
    ensures SentHeader(OutgoingCall(g, verb, uri, options), name) ==
              Some([callerValue, Str(FixedHeader(g, name))])
  {
    CredentialsSentInFull(g, verb, uri, options, name);
    assert CallerValues(options, name) + [Str(FixedHeader(g, name))] == [callerValue, Str(FixedHeader(g, name))];
  }

  /**
   * Without caller headers the request carries exactly the four default
   * headers, one value each, whatever the verb, URI and other options.
   */
  lemma NoCallerHeaders(g: Gateway, verb: string, uri: string, options: seq<Entry>)
    requires UniqueKeys(options)
    requires Lookup(options, StrKey("headers")) == None
    ensures Lookup(OutgoingCall(g, verb, uri, options).options, StrKey("headers")) == Some(Arr(DefaultHeaders(g)))
    ensures |DefaultHeaders(g)| == 4
    ensures SentHeader(OutgoingCall(g, verb, uri, options), "Accept") == Some([Str("application/json")])
    ensures SentHeader(OutgoingCall(g, verb, uri, options), "Authorization") == Some([Str("Bearer " + g.clientSecret)])
    ensures SentHeader(OutgoingCall(g, verb, uri, options), "X-Client-ID") == Some([Str(g.clientId)])
    ensures SentHeader(OutgoingCall(g, verb, uri, options), "X-Provider") == Some([Str("stripe")])
  {
    OutgoingHeadersOption(g, options);
    GatewayHeadersLookup(g, options);
    assert GatewayHeaders(g, options) == DefaultHeaders(g);
  }

  /** The values the caller's own `headers` option gives header `name`: none when it gives none. */
  function CallerValues(options: seq<Entry>, name: string): seq<Value>
  {
    match CallerHeader(options, name)
    case Some(cv) => HeaderValues(cv)
    case None => []
  }

  /**
   * Merging headers that give `name` a single non-array value `v` sends the
   * values `dest` held under `name`, if any, followed by `v`.
   */
  lemma HeaderAfterMerge(dest: seq<Entry>, src: seq<Entry>, name: string, v: Value)
    requires UniqueKeys(src) && Lookup(src, StrKey(name)) == Some(v) && !v.Arr?
    ensures var sent := Lookup(MergeFrom(dest, src, 0), StrKey(name));
            var held := Lookup(dest, StrKey(name));
            && sent.Some?
            && HeaderValues(sent.value) == (if held.Some? then HeaderValues(held.value) else []) + [v]
  {
    MergeFromLookup(dest, src, 0, name);
    assert src[0..] == src;
    match Lookup(dest, StrKey(name))
    case None =>
    case Some(held) =>
      CombineKeepsBoth(held, v);
      assert ValuesOf(AsArray(held)) == HeaderValues(held);
  }

  /** The `headers` option after the merge: the caller's, as an array, with the gateway's merged in. */
  function MergedHeaders(g: Gateway, options: seq<Entry>): seq<Entry>
  {
    match Lookup(options, StrKey("headers"))
    case None => GatewayHeaders(g, options)
    case Some(d) => MergeFrom(AsArray(d), GatewayHeaders(g, options), 0)
  }

  /** A call sends, for each header name, the values the merged `headers` option holds under it. */
  lemma SentHeaderOfMerge(g: Gateway, verb: string, uri: string, options: seq<Entry>, name: string)
    requires UniqueKeys(options)
    ensures SentHeader(OutgoingCall(g, verb, uri, options), name) ==
              match Lookup(MergedHeaders(g, options), StrKey(name))
              case Some(v) => Some(HeaderValues(v))
              case None => None
  {
    OutgoingHeadersOption(g, options);
  }

  /**
   * Whatever the options, the credentials are sent: `Accept`, `Authorization`
   * and `X-Client-ID` carry the caller's own values for them, if any, followed
   * by the gateway's value.
   */
  lemma CredentialsSentInFull(g: Gateway, verb: string, uri: string, options: seq<Entry>, name: string)
    requires UniqueKeys(options)
    requires name in {"Accept", "Authorization", "X-Client-ID"}
    ensures SentHeader(OutgoingCall(g, verb, uri, options), name) ==
              Some(CallerValues(options, name) + [Str(FixedHeader(g, name))])
  {
    var gh := GatewayHeaders(g, options);
    var fixed := Str(FixedHeader(g, name));
    SentHeaderOfMerge(g, verb, uri, options, name);
    FixedHeaderLookup(g, options, name);
    match Lookup(options, StrKey("headers"))
    case None =>
      assert CallerValues(options, name) + [fixed] == [fixed];
    case Some(d) =>
      HeaderAfterMerge(AsArray(d), gh, name, fixed);
      CallerValuesOf(options, d, name);
  }

  /** The gateway's headers give each credential header its fixed value. */
  lemma FixedHeaderLookup(g: Gateway, options: seq<Entry>, name: string)
    requires name in {"Accept", "Authorization", "X-Client-ID"}
    ensures UniqueKeys(GatewayHeaders(g, options))
    ensures Lookup(GatewayHeaders(g, options), StrKey(name)) == Some(Str(FixedHeader(g, name)))
  {
    GatewayHeadersLookup(g, options);
  }

  /** The gateway's headers give `X-Provider` the computed provider. */
  lemma ProviderHeaderLookup(g: Gateway, options: seq<Entry>)
    ensures UniqueKeys(GatewayHeaders(g, options))
    ensures Lookup(GatewayHeaders(g, options), StrKey("X-Provider")) == Some(ProviderHeader(options))
  {
    GatewayHeadersLookup(g, options);
  }

  /** The caller's values for a header are those its `headers` option holds once read as an array. */
  lemma CallerValuesOf(options: seq<Entry>, d: Value, name: string)
    requires Lookup(options, StrKey("headers")) == Some(d)
    ensures CallerValues(options, name) ==
              match Lookup(AsArray(d), StrKey(name))
              case Some(held) => HeaderValues(held)
              case None => []
  {
  }

  /** Hence the gateway's value is always the last one sent for each credential header. */
  lemma CredentialsAlwaysSent(g: Gateway, verb: string, uri: string, options: seq<Entry>, name: string)
    requires UniqueKeys(options)
    requires name in {"Accept", "Authorization", "X-Client-ID"}
    ensures var sent := SentHeader(OutgoingCall(g, verb, uri, options), name);
            && sent.Some? && |sent.value| > 0
            && sent.value[|sent.value| - 1] == Str(FixedHeader(g, name))
  {
    CredentialsSentInFull(g, verb, uri, options, name);
  }

  /**
   * `X-Provider` is "stripe" unless the caller's headers array names one. A
   * caller's non-null, non-array value is then sent twice, because the merge
   * keeps both copies; a caller's null is replaced by "stripe" in the gateway's
   * headers but still merged in, so null and "stripe" are both sent.
   */
  lemma ProviderHeaderSent(g: Gateway, verb: string, uri: string, options: seq<Entry>, h: seq<Entry>)
    requires UniqueKeys(options)
    requires Lookup(options, StrKey("headers")) == Some(Arr(h))
    ensures Lookup(h, StrKey("X-Provider")) == None ==>
              SentHeader(OutgoingCall(g, verb, uri, options), "X-Provider") == Some([Str("stripe")])
    ensures forall p :: Lookup(h, StrKey("X-Provider")) == Some(Str(p)) ==>
              SentHeader(OutgoingCall(g, verb, uri, options), "X-Provider") == Some([Str(p), Str(p)])
    ensures var held := Lookup(h, StrKey("X-Provider"));
            held.Some? && held.value != Null && !held.value.Arr? ==>
              SentHeader(OutgoingCall(g, verb, uri, options), "X-Provider") == Some([held.value, held.value])
    ensures Lookup(h, StrKey("X-Provider")) == Some(Null) ==>
              SentHeader(OutgoingCall(g, verb, uri, options), "X-Provider") == Some([Null, Str("stripe")])
  {
    match Lookup(h, StrKey("X-Provider"))
    case None =>
      ProviderValueSent(g, verb, uri, options, h);
      assert CallerValues(options, "X-Provider") + [ProviderHeader(options)] == [Str(DefaultProvider)];
    case Some(v) =>
      if !v.Arr? {
        ProviderValueSent(g, verb, uri, options, h);
        var pv := if v == Null then Str(DefaultProvider) else v;
        assert CallerValues(options, "X-Provider") + [ProviderHeader(options)] == [v, pv];
      }
  }

  /**
   * A caller's non-array `X-Provider`, or none, is followed by the computed
   * provider in the values sent.
   */
  lemma ProviderValueSent(g: Gateway, verb: string, uri: string, options: seq<Entry>, h: seq<Entry>)
    requires UniqueKeys(options)
    requires Lookup(options, StrKey("headers")) == Some(Arr(h))
    requires var held := Lookup(h, StrKey("X-Provider")); held.Some? ==> !held.value.Arr?
    ensures SentHeader(OutgoingCall(g, verb, uri, options), "X-Provider") ==
              Some(CallerValues(options, "X-Provider") + [ProviderHeader(options)])
  {
    SentHeaderOfMerge(g, verb, uri, options, "X-Provider");
    ProviderHeaderLookup(g, options);
    HeaderAfterMerge(h, GatewayHeaders(g, options), "X-Provider", ProviderHeader(options));
    CallerValuesOf(options, Arr(h), "X-Provider");
  }

  /** Options other than `headers` reach the transport unchanged. */
  lemma OtherOptionsUnchanged(g: Gateway, options: seq<Entry>, key: string)
    requires UniqueKeys(options)
    requires key != "headers"
    ensures Lookup(OutgoingOptions(g, options), StrKey(key)) == Lookup(options, StrKey(key))
  {
    ArrayMergeRecursiveLookup(options, [(StrKey("headers"), Arr(GatewayHeaders(g, options)))], key);
  }

  // ---------------------------------------------------------------------------
  // What comes back
  // ---------------------------------------------------------------------------

  /** A response is never inspected for its status: the same body gives the same result. */
  lemma StatusIgnored(g: Gateway, verb: string, uri: string, options: seq<Entry>,
                      send: Call -> Transport, decode: string -> Value, status: int, body: string)
    requires send(OutgoingCall(g, verb, uri, options)) == Responded(Response(status, body))
    ensures Request(g, verb, uri, options, send, decode) == Returned(decode(body))
  {
  }

  /** On the exception path the body is carried as raw text: decoding plays no part. */
  lemma ErrorBodyNotDecoded(t: Transport, decode: string -> Value, decode': string -> Value)
    requires !t.Responded?
    ensures Normalise(t, decode) == Normalise(t, decode')
  {
  }
}
