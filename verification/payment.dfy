/**
 * The payment resource (src/Payment.php): `create` and `find` shape one
 * request each and return whatever the gateway returns.
 */
module Payment {
  import opened Wrappers
  import opened PhpArrays
  import opened ArrayMerge
  import opened HttpClient

  /** A payment resource sends through its own gateway. */
  datatype PaymentResource = PaymentResource(http: Gateway)

  /** The collection path both operations use. */
  const PaymentsPath: string := "/api/v1/payments"

  /** `create`'s default currency. */
  const DefaultCurrency: string := "USD"

  /** The `create` request body, before JSON encoding. */
  function CreatePayload(amount: real, currency: string, redirectUrls: seq<Entry>, metadata: seq<Entry>): (r: seq<Entry>)
    ensures |r| == 4 && UniqueKeys(r)
    ensures r[0].0 == StrKey("amount") && r[1].0 == StrKey("currency")
    ensures r[2].0 == StrKey("metadata") && r[3].0 == StrKey("redirect_urls")
    ensures Lookup(r, StrKey("amount")) == Some(Float(amount))
    ensures Lookup(r, StrKey("currency")) == Some(Str(currency))
    ensures Lookup(r, StrKey("metadata")) == Some(Arr(metadata))
    ensures Lookup(r, StrKey("redirect_urls")) == Some(Arr(redirectUrls))
  {
    var r := [ (StrKey("amount"), Float(amount)),
               (StrKey("currency"), Str(currency)),
               (StrKey("metadata"), Arr(metadata)),
               (StrKey("redirect_urls"), Arr(redirectUrls)) ];
    LookupFirst(r[1..], StrKey("currency"));
    LookupFirst(r[2..], StrKey("metadata"));
    LookupFirst(r[3..], StrKey("redirect_urls"));
    assert r[1..][1..] == r[2..];
    assert r[2..][1..] == r[3..];
    r
  }

  /** `Payment::create`: POST the payload as the `json` option. */
  function Create(p: PaymentResource, amount: real, currency: string, redirectUrls: seq<Entry>, metadata: seq<Entry>,
                  send: Call -> Transport, decode: string -> Value): Outcome
  {
    Request(p.http, "POST", PaymentsPath,
            [(StrKey("json"), Arr(CreatePayload(amount, currency, redirectUrls, metadata)))], send, decode)
  }

  /** `create($amount)` with every optional argument left out. */
  function CreateWithDefaults(p: PaymentResource, amount: real, send: Call -> Transport, decode: string -> Value): Outcome
  {
    Create(p, amount, DefaultCurrency, [], [], send, decode)
  }

  /** `Payment::find`: GET the payment's path, with no options. */
  function Find(p: PaymentResource, paymentId: string, send: Call -> Transport, decode: string -> Value): Outcome
  {
    Request(p.http, "GET", PaymentsPath + "/" + paymentId, [], send, decode)
  }

  // ---------------------------------------------------------------------------
  // What the operations send, and what they return
  // ---------------------------------------------------------------------------

  /** Merging the headers into options that hold one other string key appends `headers` after it. */
  lemma OneOptionMerged(g: Gateway, key: string, v: Value)
    requires key != "headers"
    ensures OutgoingOptions(g, [(StrKey(key), v)]) == [(StrKey(key), v), (StrKey("headers"), Arr(DefaultHeaders(g)))]
  {
    var options := [(StrKey(key), v)];
    CopyFirst(options);
    assert CallerHeader(options, "X-Provider") == None;
    assert GatewayHeaders(g, options) == DefaultHeaders(g);
    var second := [(StrKey("headers"), Arr(DefaultHeaders(g)))];
    assert IndexOf(options, StrKey("headers")).None?;
    assert MergeEntry(options, StrKey("headers"), Arr(DefaultHeaders(g))) == options + second;
    assert MergeFrom(options, second, 0) == MergeFrom(options + second, second, 1);
  }

  /**
   * `create` sends exactly one POST to `/api/v1/payments` whose options are the
   * payload under `json` and the four default headers, for every amount and
   * currency, and returns the gateway's mapping of the transport's answer.
   */
  lemma CreateSends(p: PaymentResource, amount: real, currency: string, redirectUrls: seq<Entry>, metadata: seq<Entry>,
                    send: Call -> Transport, decode: string -> Value)
    ensures
      var payload := CreatePayload(amount, currency, redirectUrls, metadata);
      var c := Call(p.http.baseUrl, TimeoutSeconds, "POST", "/api/v1/payments",
                    [(StrKey("json"), Arr(payload)), (StrKey("headers"), Arr(DefaultHeaders(p.http)))]);
      Create(p, amount, currency, redirectUrls, metadata, send, decode) == Normalise(send(c), decode)
  {
    OneOptionMerged(p.http, "json", Arr(CreatePayload(amount, currency, redirectUrls, metadata)));
  }

  /**
   * Left out, the optional arguments are currency "USD", no redirect URLs and
   * no metadata: the payload sent is exactly this one.
   */
  lemma CreateDefaults(p: PaymentResource, amount: real, send: Call -> Transport, decode: string -> Value)
    ensures CreateWithDefaults(p, amount, send, decode) ==
              Normalise(send(Call(p.http.baseUrl, TimeoutSeconds, "POST", "/api/v1/payments",
                                  [ (StrKey("json"), Arr([ (StrKey("amount"), Float(amount)),
                                                           (StrKey("currency"), Str("USD")),
                                                           (StrKey("metadata"), Arr([])),
                                                           (StrKey("redirect_urls"), Arr([])) ])),
                                    (StrKey("headers"), Arr(DefaultHeaders(p.http))) ])),
                        decode)
  {
    CreateSends(p, amount, "USD", [], [], send, decode);
  }

  /**
   * `find` sends exactly one GET to `/api/v1/payments/` followed by the id as
   * given, with the default headers as its only option (so no body), and
   * returns the gateway's mapping of the transport's answer.
   */
  lemma FindSends(p: PaymentResource, paymentId: string, send: Call -> Transport, decode: string -> Value)
    ensures
      var c := Call(p.http.baseUrl, TimeoutSeconds, "GET", "/api/v1/payments/" + paymentId,
                    [(StrKey("headers"), Arr(DefaultHeaders(p.http)))]);
      && Lookup(c.options, StrKey("json")) == None
      && Find(p, paymentId, send, decode) == Normalise(send(c), decode)
  {
    assert CallerHeader([], "X-Provider") == None;
    assert GatewayHeaders(p.http, []) == DefaultHeaders(p.http);
    assert PaymentsPath + "/" + paymentId == "/api/v1/payments/" + paymentId;
    var second := [(StrKey("headers"), Arr(DefaultHeaders(p.http)))];
    assert MergeRecursive([], []) == [];
    assert MergeEntry([], StrKey("headers"), Arr(DefaultHeaders(p.http))) == second;
    assert MergeFrom([], second, 0) == MergeFrom(second, second, 1);
  }

  /**
   * A create rejected with 401 comes back as an error array with status 401
   * and the raw response body as message.
   */
  lemma CreateUnauthorized(p: PaymentResource, send: Call -> Transport, decode: string -> Value, body: string)
    requires
      var payload := CreatePayload(49.99, "USD", [], []);
      send(Call(p.http.baseUrl, TimeoutSeconds, "POST", "/api/v1/payments",
                [(StrKey("json"), Arr(payload)), (StrKey("headers"), Arr(DefaultHeaders(p.http)))]))
        == RequestFailed(Some(Response(401, body)), "Unauthorized")
    ensures var r := CreateWithDefaults(p, 49.99, send, decode);
            && r.Returned? && r.value.Arr?
            && Lookup(r.value.entries, StrKey("error")) == Some(Bool(true))
            && Lookup(r.value.entries, StrKey("status")) == Some(Int(401))
            && Lookup(r.value.entries, StrKey("message")) == Some(Str(body))
  {
    CreateDefaults(p, 49.99, send, decode);
  }
}
