/** The client facade of src/Taxjar/TaxjarApi.cs: how the options become a
    configured client, which headers every request carries, how a response is
    turned into a value or an error, and the validate, build the path, send,
    unwrap shape of every operation.

    The HTTP exchange, the JSON decoder and the runtime description are not
    modelled: they are parameters (`send`, the decoders, `RuntimeInfo`). */
module Api {
  import opened Wrappers
  import opened Text
  import opened Constants
  import opened Entities
  import opened Validation
  import opened RequestBuilder

  // ---------------------------------------------------------------------
  // Options and the base URL

  /** `TaxjarApiOptions` (src/Taxjar/TaxJarApiOptions.cs). A null token or URL
      is `None`; the custom headers are listed in the order the dictionary
      enumerates them; the timeout is in milliseconds. The serializer options
      are not modelled. */
  datatype ApiOptions = ApiOptions(
    apiToken: Option<string>,
    apiUrl: Option<string>,
    headers: seq<(string, string)>,
    timeoutMs: int,
    useSandbox: bool,
    apiVersion: string)

  /** The options as a fresh `TaxjarApiOptions` holds them: an empty token,
      the production host, no headers, ten seconds, no sandbox, version "v2". */
  const DefaultOptions: ApiOptions :=
    ApiOptions(Some(""), Some(DefaultApiUrl), [], TimeoutInMilliseconds, false, ApiVersion)

  predicate EndsWithSlash(s: string) {
    |s| > 0 && s[|s| - 1] == '/'
  }

  /** `GetApiBaseUrl`: `{apiUrl}/{apiVersion}/`. */
  function ApiBaseUrl(apiUrl: string, apiVersion: string): (r: string)
    ensures |r| == |apiUrl| + |apiVersion| + 2
    ensures r[..|apiUrl|] == apiUrl && r[|apiUrl|] == '/'
    ensures r[|apiUrl| + 1..|r| - 1] == apiVersion && EndsWithSlash(r)
  {
    apiUrl + "/" + apiVersion + "/"
  }

  /** The configured URL is taken as it is: it is not blank and does not contain
      the production host. */
  predicate IsCustomUrl(apiUrl: Option<string>) {
    !NullOrBlank(apiUrl) && IndexOf(apiUrl.value, DefaultApiUrl) == -1
  }

  /** `GetApiUrl`: a custom URL with a `/` put at its end when it lacks one;
      otherwise the sandbox or production host followed by the version. */
  function GetApiUrl(options: ApiOptions): (r: string)
    ensures EndsWithSlash(r)
  {
    if IsCustomUrl(options.apiUrl) then
      var url := options.apiUrl.value;
      if LastIndexOf(url, '/') == |url| - 1 then url else url + "/"
    else if options.useSandbox then ApiBaseUrl(SandboxApiUrl, options.apiVersion)
    else ApiBaseUrl(DefaultApiUrl, options.apiVersion)
  }

  /** A custom URL is kept when it already ends with `/`, and gets exactly one `/` otherwise. */
  lemma CustomApiUrl(options: ApiOptions)
    requires IsCustomUrl(options.apiUrl)
    ensures EndsWithSlash(options.apiUrl.value) ==> GetApiUrl(options) == options.apiUrl.value
    ensures !EndsWithSlash(options.apiUrl.value) ==> GetApiUrl(options) == options.apiUrl.value + "/"
  {
  }

  /** Resolving the URL again from its own result changes nothing: a custom URL
      with a `/` appended is still custom, because the production host does not
      end with `/`. */
  lemma CustomApiUrlIdempotent(options: ApiOptions)
    requires IsCustomUrl(options.apiUrl)
    ensures IsCustomUrl(Some(GetApiUrl(options)))
    ensures GetApiUrl(options.(apiUrl := Some(GetApiUrl(options)))) == GetApiUrl(options)
  {
    var url := options.apiUrl.value;
    var r := GetApiUrl(options);
    if r != url {
      assert r == url + "/";
      var k :| 0 <= k < |url| && !IsWhiteSpace(url[k]);
      assert r[k] == url[k];
      var n := |DefaultApiUrl|;
      forall j | 0 <= j && j + n <= |r| ensures !OccursAt(r, DefaultApiUrl, j) {
        if j + n <= |url| {
          assert r[j..j + n] == url[j..j + n];
          assert !OccursAt(url, DefaultApiUrl, j);
        } else {
          assert r[j..j + n][n - 1] == '/' != DefaultApiUrl[n - 1];
        }
      }
    }
  }

  /** Without a custom URL, the host is chosen by `UseSandbox` and followed by the version. */
  lemma HostApiUrl(options: ApiOptions)
    requires !IsCustomUrl(options.apiUrl)
    ensures GetApiUrl(options)
         == (if options.useSandbox then SandboxApiUrl else DefaultApiUrl) + "/" + options.apiVersion + "/"
  {
  }

  /** Default options give `https://api.taxjar.com/v2/`, and the sandbox host with `UseSandbox`. */
  lemma DefaultApiUrls()
    ensures GetApiUrl(DefaultOptions) == "https://api.taxjar.com/v2/"
    ensures GetApiUrl(DefaultOptions.(useSandbox := true)) == "https://api.sandbox.taxjar.com/v2/"
  {
    assert OccursAt(DefaultApiUrl, DefaultApiUrl, 0);
    assert "https://api.taxjar.com" + "/" == "https://api.taxjar.com/";
    assert "https://api.taxjar.com/" + "v2" == "https://api.taxjar.com/v2";
    assert "https://api.taxjar.com/v2" + "/" == "https://api.taxjar.com/v2/";
    assert "https://api.sandbox.taxjar.com" + "/" == "https://api.sandbox.taxjar.com/";
    assert "https://api.sandbox.taxjar.com/" + "v2" == "https://api.sandbox.taxjar.com/v2";
    assert "https://api.sandbox.taxjar.com/v2" + "/" == "https://api.sandbox.taxjar.com/v2/";
  }

  // ---------------------------------------------------------------------
  // Construction

  /** What `RuntimeInformation` and the assembly report about the running program. */
  datatype RuntimeInfo = RuntimeInfo(
    osDescription: string,
    osArchitecture: string,
    frameworkDescription: string,
    assemblyVersion: Option<string>)

  /** `GetUserAgent`: `TaxJar/.NET ({platform}; {arch}; {framework}) taxjar.net/{version}`,
      the version being the assembly's or, failing that, the API version. */
  function UserAgentText(runtime: RuntimeInfo, apiVersion: string): (r: string)
    ensures var version := runtime.assemblyVersion.GetOr(apiVersion);
      |r| >= |version| && r[|r| - |version|..] == version
  {
    "TaxJar/.NET (" + runtime.osDescription + "; " + runtime.osArchitecture + "; "
    + runtime.frameworkDescription + ") taxjar.net/" + runtime.assemblyVersion.GetOr(apiVersion)
  }

  /** The token check at the start of the constructor. */
  function ApiKeyCheck(apiToken: Option<string>): (o: Outcome<Error>)
    ensures o.Pass? <==> !NullOrBlank(apiToken)
    ensures o.Fail? ==> o.error == ArgumentError(MissingApiKey, Some("options"))
  {
    if NullOrBlank(apiToken) then Fail(ArgumentError(MissingApiKey, Some("options"))) else Pass
  }

  /** The default options have an empty token, so they are refused. */
  lemma DefaultOptionsRefused()
    ensures ApiKeyCheck(DefaultOptions.apiToken) == Fail(ArgumentError("Please provide a TaxJar API key.", Some("options")))
  {
  }

  // ---------------------------------------------------------------------
  // Headers

  /** The default request headers of a client: the Authorization scheme and
      parameter, the Accept media types, the User-Agent products in the order
      they were added, and the headers added by name. */
  datatype ClientHeaders = ClientHeaders(
    authorization: (string, string),
    accept: seq<string>,
    userAgent: seq<string>,
    added: seq<(string, string)>)

  /** The Authorization header as it goes on the wire. */
  function AuthorizationValue(h: ClientHeaders): string {
    h.authorization.0 + " " + h.authorization.1
  }

  /** Authorization and Accept, in any letter case, are set by the client and never overridden. */
  predicate IsReservedHeader(key: string) {
    EqualsIgnoreCase(key, AuthorizationHeader) || EqualsIgnoreCase(key, AcceptHeader)
  }

  predicate IsUserAgentHeader(key: string) {
    EqualsIgnoreCase(key, UserAgentHeader)
  }

  /** The custom headers that are added by name, in order: all but the reserved ones. */
  function PassedHeaders(headers: seq<(string, string)>): (r: seq<(string, string)>)
    ensures |r| <= |headers|
  {
    if |headers| == 0 then []
    else
      var last := headers[|headers| - 1];
      PassedHeaders(headers[..|headers| - 1]) + (if IsReservedHeader(last.0) then [] else [last])
  }

  /** The values of the custom User-Agent headers, in order. */
  function CustomUserAgents(headers: seq<(string, string)>): (r: seq<string>)
    ensures |r| <= |headers|
  {
    if |headers| == 0 then []
    else
      var last := headers[|headers| - 1];
      CustomUserAgents(headers[..|headers| - 1]) + (if IsUserAgentHeader(last.0) then [last.1] else [])
  }

  /** The headers of a client made for `apiToken` and `userAgent` with the given custom headers. */
  function ExpectedHeaders(apiToken: string, userAgent: string, headers: seq<(string, string)>): ClientHeaders {
    ClientHeaders((BearerScheme, apiToken), [ContentType], [userAgent] + CustomUserAgents(headers), PassedHeaders(headers))
  }

  /** Exactly the custom headers that are not reserved are added, each with its own value. */
  lemma {:induction false} PassedHeadersMembers(headers: seq<(string, string)>, p: (string, string))
    ensures p in PassedHeaders(headers) <==> p in headers && !IsReservedHeader(p.0)
  {
    if |headers| > 0 {
      var init := headers[..|headers| - 1];
      PassedHeadersMembers(init, p);
      assert headers == init + [headers[|headers| - 1]];
    }
  }

  /** The custom User-Agent values are the values of the custom headers named User-Agent. */
  lemma {:induction false} CustomUserAgentsMembers(headers: seq<(string, string)>, v: string)
    ensures v in CustomUserAgents(headers) <==> exists i :: 0 <= i < |headers| && IsUserAgentHeader(headers[i].0) && headers[i].1 == v
  {
    if |headers| > 0 {
      var init := headers[..|headers| - 1];
      CustomUserAgentsMembers(init, v);
      assert forall i :: 0 <= i < |init| ==> init[i] == headers[i];
    }
  }

  /** Whatever the custom headers hold, Authorization stays `Bearer {token}`,
      Accept stays `application/json`, the computed User-Agent comes first, and
      no reserved header is added by name. */
  lemma HeadersOverlay(apiToken: string, userAgent: string, headers: seq<(string, string)>)
    ensures var h := ExpectedHeaders(apiToken, userAgent, headers);
      && AuthorizationValue(h) == "Bearer " + apiToken
      && h.accept == ["application/json"]
      && h.userAgent[0] == userAgent
      && forall i :: 0 <= i < |h.added| ==> !IsReservedHeader(h.added[i].0)
  {
    var h := ExpectedHeaders(apiToken, userAgent, headers);
    forall i | 0 <= i < |h.added| ensures !IsReservedHeader(h.added[i].0) {
      PassedHeadersMembers(headers, h.added[i]);
    }
  }

  /** A custom `authorization` header in lower case is skipped, while any other header is added. */
  lemma HeaderExample(apiToken: string, userAgent: string)
    ensures ExpectedHeaders(apiToken, userAgent, [("authorization", "Basic x"), ("X-Trace", "1")]).added == [("X-Trace", "1")]
  {
    var hs := [("authorization", "Basic x"), ("X-Trace", "1")];
    assert IsReservedHeader("authorization") by {
      assert EqualsIgnoreCase("authorization", AuthorizationHeader);
    }
    assert !IsReservedHeader("X-Trace") by {
      assert ToUpperAscii("X-Trace"[0]) != ToUpperAscii(AuthorizationHeader[0]);
      assert |"X-Trace"| != |AcceptHeader|;
    }
    assert hs[..1][..0] == [];
    assert hs[..1] == [("authorization", "Basic x")];
  }

  // ---------------------------------------------------------------------
  // Responses

  datatype HttpResponse = HttpResponse(statusCode: int, body: string)

  /** `IsSuccessStatusCode`. */
  predicate IsSuccessStatusCode(statusCode: int) {
    200 <= statusCode <= 299
  }

  /** `JsonSerializer.Deserialize`: a value, `None` for a body that decodes to
      null, or the error it throws. */
  type Decoder<T> = string -> Result<Option<T>, Error>

  /** The message of a service error: `{error} - {detail}`, a null detail
      concatenating as the empty string. */
  function ErrorMessage(e: TaxjarError): (m: string)
    ensures |m| == |e.error| + 3 + |e.detail.GetOr("")|
    ensures m[..|e.error|] == e.error && m[|e.error|..|e.error| + 3] == " - "
    ensures m[|e.error| + 3..] == e.detail.GetOr("")
  {
    e.error + " - " + e.detail.GetOr("")
  }

  /** `SendRequestAsync` after the response arrived: a failure status becomes a
      service error built from the decoded error body, or a decode error with
      the raw body when that decodes to null; a success status decodes the body. */
  function MapResponse<T>(response: HttpResponse, decodeError: Decoder<TaxjarError>, decodeBody: Decoder<T>): (r: Result<Option<T>, Error>)
    ensures IsSuccessStatusCode(response.statusCode) ==> r == decodeBody(response.body)
    ensures !IsSuccessStatusCode(response.statusCode) ==> r.Failure?
  {
    if !IsSuccessStatusCode(response.statusCode) then
      match decodeError(response.body)
      case Failure(e) => Failure(e)
      case Success(None) => Failure(JsonError(UndecodableErrorPrefix + response.body))
      case Success(Some(taxjarError)) =>
        Failure(ApiError(response.statusCode, taxjarError, ErrorMessage(taxjarError)))
    else decodeBody(response.body)
  }

  /** On a failure status the body decoder is never consulted: the error does
      not depend on it. */
  lemma FailureIgnoresBodyDecoder<T>(response: HttpResponse, decodeError: Decoder<TaxjarError>, d1: Decoder<T>, d2: Decoder<T>)
    requires !IsSuccessStatusCode(response.statusCode)
    ensures MapResponse(response, decodeError, d1) == MapResponse(response, decodeError, d2)
  {
  }

  /** A decoded error body gives a service error that keeps the status and the
      error object, with the message `{error} - {detail}`. */
  lemma ServiceError<T>(response: HttpResponse, decodeError: Decoder<TaxjarError>, decodeBody: Decoder<T>, e: TaxjarError)
    requires !IsSuccessStatusCode(response.statusCode)
    requires decodeError(response.body) == Success(Some(e))
    ensures MapResponse(response, decodeError, decodeBody)
         == Failure(ApiError(response.statusCode, e, e.error + " - " + e.detail.GetOr("")))
  {
  }

  /** An error body that decodes to null gives a decode error whose message ends with the raw body. */
  lemma UndecodableError<T>(response: HttpResponse, decodeError: Decoder<TaxjarError>, decodeBody: Decoder<T>)
    requires !IsSuccessStatusCode(response.statusCode)
    requires decodeError(response.body) == Success(None)
    ensures var r := MapResponse(response, decodeError, decodeBody);
      && r.error.JsonError? && r.error.message[..|UndecodableErrorPrefix|] == UndecodableErrorPrefix
      && r.error.message[|UndecodableErrorPrefix|..] == response.body
  {
  }

  /** The unauthorized answer of the service reads as `Unauthorized - {detail}` with status 401. */
  lemma UnauthorizedExample<T>(body: string, decodeError: Decoder<TaxjarError>, decodeBody: Decoder<T>, detail: string)
    requires decodeError(body) == Success(Some(TaxjarError("Unauthorized", Some(detail), "401")))
    ensures MapResponse(HttpResponse(401, body), decodeError, decodeBody)
         == Failure(ApiError(401, TaxjarError("Unauthorized", Some(detail), "401"), "Unauthorized - " + detail))
  {
    assert "Unauthorized" + " - " == "Unauthorized - ";
  }

  // ---------------------------------------------------------------------
  // Operations

  datatype HttpMethod = Get | Post | Put | Delete

  /** The record a request carries as its JSON body. */
  datatype RequestBody =
    | NoBody
    | CustomerBody(customer: TaxjarCustomerRequest)
    | TaxCalculationBody(taxCalculation: TaxjarTaxCalculationRequest)
    | OrderBody(order: TaxjarOrderRequest)
    | RefundBody(refund: TaxjarRefundRequest)
    | AddressBody(address: Address)

  /** A request relative to the client's base address. */
  datatype HttpRequest = HttpRequest(httpMethod: HttpMethod, path: string, body: RequestBody)

  /** The base address and headers of the client a request is sent with. */
  datatype Client = Client(baseAddress: string, headers: ClientHeaders, timeoutMs: int)

  /** What an operation did: the requests it sent, and its result. */
  datatype Exchange<T> = Exchange(sent: seq<HttpRequest>, result: Result<Option<T>, Error>)

  /** A check guarding a request: the request when the check passes, its error otherwise. */
  function Guarded(check: Outcome<Error>, request: HttpRequest): (r: Result<HttpRequest, Error>)
    ensures r.Success? <==> check.Pass?
    ensures r.Success? ==> r.value == request
    ensures r.Failure? ==> r.error == check.error
  {
    match check
    case Fail(e) => Failure(e)
    case Pass => Success(request)
  }

  /** A request whose path may fail to build. */
  function AtPath(httpMethod: HttpMethod, path: Result<string, Error>, body: RequestBody): (r: Result<HttpRequest, Error>)
    ensures r.Success? <==> path.Success?
    ensures r.Success? ==> r.value == HttpRequest(httpMethod, path.value, body)
    ensures r.Failure? ==> r.error == path.error
  {
    match path
    case Failure(e) => Failure(e)
    case Success(p) => Success(HttpRequest(httpMethod, p, body))
  }

  /** Send, then unwrap: the planned request goes out only when validation and
      the path succeeded; a null envelope gives a null value, and otherwise
      `unwrap` takes the field the operation returns. */
  function Execute<E, T>(plan: Result<HttpRequest, Error>, client: Client,
                         send: (Client, HttpRequest) -> HttpResponse,
                         decodeError: Decoder<TaxjarError>, decodeBody: Decoder<E>,
                         unwrap: E -> Option<T>): (x: Exchange<T>)
    ensures plan.Failure? <==> x.sent == []
    ensures plan.Failure? ==> x.result == Failure(plan.error)
    ensures plan.Success? ==> x.sent == [plan.value]
    ensures plan.Success? && !IsSuccessStatusCode(send(client, plan.value).statusCode) ==> x.result.Failure?
    ensures (plan.Success? && MapResponse(send(client, plan.value), decodeError, decodeBody).Failure?)
            ==> x.result == Failure(MapResponse(send(client, plan.value), decodeError, decodeBody).error)
    ensures (plan.Success? && decodeBody(send(client, plan.value).body) == Success(None)
             && IsSuccessStatusCode(send(client, plan.value).statusCode)) ==> x.result == Success(None)
    ensures (plan.Success? && IsSuccessStatusCode(send(client, plan.value).statusCode)
             && decodeBody(send(client, plan.value).body).Success? && decodeBody(send(client, plan.value).body).value.Some?)
            ==> x.result == Success(unwrap(decodeBody(send(client, plan.value).body).value.value))
  {
    match plan
    case Failure(e) => Exchange([], Failure(e))
    case Success(request) =>
      match MapResponse(send(client, request), decodeError, decodeBody)
      case Failure(e) => Exchange([request], Failure(e))
      case Success(None) => Exchange([request], Success(None))
      case Success(Some(envelope)) => Exchange([request], Success(unwrap(envelope)))
  }

  /** A failed plan gives the same answer with any client and any executor: nothing is sent. */
  lemma FailedPlanSendsNothing<E, T>(plan: Result<HttpRequest, Error>, c1: Client, c2: Client,
                                     s1: (Client, HttpRequest) -> HttpResponse, s2: (Client, HttpRequest) -> HttpResponse,
                                     decodeError: Decoder<TaxjarError>, decodeBody: Decoder<E>, unwrap: E -> Option<T>)
    requires plan.Failure?
    ensures Execute(plan, c1, s1, decodeError, decodeBody, unwrap) == Execute(plan, c2, s2, decodeError, decodeBody, unwrap)
  {
  }

  /** A service error reaches the caller of an operation unchanged: the
      operation answers with the status, the error object and `{error} - {detail}`. */
  lemma ExecuteServiceError<E, T>(plan: Result<HttpRequest, Error>, client: Client,
                                  send: (Client, HttpRequest) -> HttpResponse,
                                  decodeError: Decoder<TaxjarError>, decodeBody: Decoder<E>,
                                  unwrap: E -> Option<T>, e: TaxjarError)
    requires plan.Success?
    requires !IsSuccessStatusCode(send(client, plan.value).statusCode)
    requires decodeError(send(client, plan.value).body) == Success(Some(e))
    ensures Execute(plan, client, send, decodeError, decodeBody, unwrap)
         == Exchange([plan.value], Failure(ApiError(send(client, plan.value).statusCode, e, e.error + " - " + e.detail.GetOr(""))))
  {
    ServiceError(send(client, plan.value), decodeError, decodeBody, e);
  }

  // The request each operation plans. Operations without a check always send.

  function CategoriesRequest(): HttpRequest {
    HttpRequest(Get, CategoriesEndpoint, NoBody)
  }

  /** `RatesForLocationAsync`: the zip is checked first. */
  function RatesForLocationRequest(address: Address, urlEncode: string -> string): (r: Result<HttpRequest, Error>)
    ensures r.Success? <==> address.zip.Some? && !Blank(address.zip.value)
    ensures r.Failure? ==> r.error == ArgumentNullError("zip", MissingZip)
    ensures r.Success? ==> r.value == HttpRequest(Get, RatesPath(address, urlEncode), NoBody)
  {
    Guarded(ValidateZip(address.zip), HttpRequest(Get, RatesPath(address, urlEncode), NoBody))
  }

  function ListCustomersRequest(): HttpRequest {
    HttpRequest(Get, CustomersEndpoint, NoBody)
  }

  function ShowCustomerRequest(customerId: string): (r: Result<HttpRequest, Error>)
    ensures r.Success? <==> !Blank(customerId)
    ensures r.Failure? ==> r.error == ArgumentError(MissingCustomerId, None)
    ensures r.Success? ==> r.value == HttpRequest(Get, "customers/" + customerId, NoBody)
  {
    Guarded(ValidateCustomerId(customerId), HttpRequest(Get, ShowCustomerPath(customerId), NoBody))
  }

  function CreateCustomerRequest(c: TaxjarCustomerRequest): (r: Result<HttpRequest, Error>)
    ensures r.Success? <==> !Blank(c.customerId) && !Blank(c.name) && !Blank(c.exemptionType)
    ensures r.Failure? ==> r.error == CustomerValidation(c).error
    ensures r.Success? ==> r.value == HttpRequest(Post, CustomersEndpoint, CustomerBody(c))
  {
    CustomerAccepted(c);
    Guarded(CustomerValidation(c), HttpRequest(Post, CustomersEndpoint, CustomerBody(c)))
  }

  function UpdateCustomerRequest(c: TaxjarCustomerRequest): (r: Result<HttpRequest, Error>)
    ensures r.Success? <==> !Blank(c.customerId) && !Blank(c.name) && !Blank(c.exemptionType)
    ensures r.Failure? ==> r.error == CustomerValidation(c).error
    ensures r.Success? ==> r.value == HttpRequest(Put, "customers/" + c.customerId, CustomerBody(c))
  {
    CustomerAccepted(c);
    Guarded(CustomerValidation(c), HttpRequest(Put, ShowCustomerPath(c.customerId), CustomerBody(c)))
  }

  function DeleteCustomerRequest(customerId: string): (r: Result<HttpRequest, Error>)
    ensures r.Success? <==> !Blank(customerId)
    ensures r.Failure? ==> r.error == ArgumentError(MissingCustomerId, None)
    ensures r.Success? ==> r.value == HttpRequest(Delete, "customers/" + customerId, NoBody)
  {
    Guarded(ValidateCustomerId(customerId), HttpRequest(Delete, ShowCustomerPath(customerId), NoBody))
  }

  function NexusRegionsRequest(): HttpRequest {
    HttpRequest(Get, NexusRegionsEndpoint, NoBody)
  }

  function SummaryRatesRequest(): HttpRequest {
    HttpRequest(Get, SummaryRatesEndpoint, NoBody)
  }

  function TaxForOrderRequest(t: TaxjarTaxCalculationRequest): (r: Result<HttpRequest, Error>)
    ensures r.Success? <==> TaxCalculationValidation(t).Pass?
    ensures r.Failure? ==> r.error == TaxCalculationValidation(t).error
    ensures r.Success? ==> r.value == HttpRequest(Post, TaxesEndpoint, TaxCalculationBody(t))
  {
    Guarded(TaxCalculationValidation(t), HttpRequest(Post, TaxesEndpoint, TaxCalculationBody(t)))
  }

  function ListOrdersRequest(filter: OrderFilter, urlEncode: string -> string): HttpRequest {
    HttpRequest(Get, FilterOrdersPath(filter, urlEncode), NoBody)
  }

  /** `ShowOrderAsync` and `DeleteOrderAsync` check the id, and the path builder checks it again. */
  function TransactionRequest(httpMethod: HttpMethod, endpoint: string, transactionId: string, provider: Option<string>): (r: Result<HttpRequest, Error>)
    ensures r.Success? <==> !Blank(transactionId)
    ensures r.Failure? ==> r.error == ArgumentError(MissingTransactionId, None)
    ensures r.Success? ==> r.value == HttpRequest(httpMethod, TransactionIdPath(endpoint, transactionId, provider).value, NoBody)
  {
    match ValidateTransactionId(transactionId)
    case Fail(e) => Failure(e)
    case Pass => AtPath(httpMethod, TransactionIdPath(endpoint, transactionId, provider), NoBody)
  }

  function ShowOrderRequest(transactionId: string, provider: Option<string>): (r: Result<HttpRequest, Error>)
    ensures r == TransactionRequest(Get, TransactionOrdersEndpoint, transactionId, provider)
    ensures r.Success? <==> !Blank(transactionId)
    ensures r.Failure? ==> r.error == ArgumentError(MissingTransactionId, None)
    ensures provider.None? && !Blank(transactionId) ==>
      r == Success(HttpRequest(Get, "transactions/orders/" + transactionId, NoBody))
  {
    if !Blank(transactionId) then
      TransactionIdPathProvider(TransactionOrdersEndpoint, transactionId, provider);
      assert TransactionOrdersEndpoint + "/" + transactionId == "transactions/orders/" + transactionId;
      TransactionRequest(Get, TransactionOrdersEndpoint, transactionId, provider)
    else
      TransactionRequest(Get, TransactionOrdersEndpoint, transactionId, provider)
  }

  function CreateOrderRequest(o: TaxjarOrderRequest): (r: Result<HttpRequest, Error>)
    ensures r.Success? <==> CreateOrderValidation(o).Pass?
    ensures r.Failure? ==> r.error == CreateOrderValidation(o).error
    ensures r.Success? ==> r.value == HttpRequest(Post, TransactionOrdersEndpoint, OrderBody(o))
  {
    Guarded(CreateOrderValidation(o), HttpRequest(Post, TransactionOrdersEndpoint, OrderBody(o)))
  }

  /** `UpdateOrderAsync`: only the id is checked, and the id goes into the path unencoded. */
  function UpdateOrderRequest(o: TaxjarOrderRequest): (r: Result<HttpRequest, Error>)
    ensures r.Success? <==> !Blank(o.transactionId)
    ensures r.Failure? ==> r.error == UpdateOrderValidation(o).error
    ensures r.Success? ==> r.value == HttpRequest(Put, "transactions/orders/" + o.transactionId, OrderBody(o))
  {
    UpdateOrderAccepted(o);
    Guarded(UpdateOrderValidation(o), HttpRequest(Put, ResourcePath(TransactionOrdersEndpoint, o.transactionId), OrderBody(o)))
  }

  function DeleteOrderRequest(transactionId: string, provider: Option<string>): (r: Result<HttpRequest, Error>)
    ensures r == TransactionRequest(Delete, TransactionOrdersEndpoint, transactionId, provider)
    ensures r.Success? <==> !Blank(transactionId)
    ensures r.Failure? ==> r.error == ArgumentError(MissingTransactionId, None)
    ensures provider.None? && !Blank(transactionId) ==>
      r == Success(HttpRequest(Delete, "transactions/orders/" + transactionId, NoBody))
  {
    if !Blank(transactionId) then
      TransactionIdPathProvider(TransactionOrdersEndpoint, transactionId, provider);
      assert TransactionOrdersEndpoint + "/" + transactionId == "transactions/orders/" + transactionId;
      TransactionRequest(Delete, TransactionOrdersEndpoint, transactionId, provider)
    else
      TransactionRequest(Delete, TransactionOrdersEndpoint, transactionId, provider)
  }

  function ListRefundsRequest(filter: RefundFilter, urlEncode: string -> string): HttpRequest {
    HttpRequest(Get, FilterRefundPath(filter, urlEncode), NoBody)
  }

  /** `ShowRefundAsync` and `DeleteRefundAsync`: the id is checked, then the refund path is built. */
  function RefundTransactionRequest(httpMethod: HttpMethod, transactionId: string, provider: Option<string>): (r: Result<HttpRequest, Error>)
    ensures r.Success? <==> !Blank(transactionId)
    ensures r.Failure? ==> r.error == ArgumentError(MissingTransactionId, None)
    ensures r.Success? ==> r.value == HttpRequest(httpMethod, ShowRefundPath(transactionId, provider).value, NoBody)
  {
    match ValidateTransactionId(transactionId)
    case Fail(e) => Failure(e)
    case Pass => AtPath(httpMethod, ShowRefundPath(transactionId, provider), NoBody)
  }

  function CreateRefundRequest(f: TaxjarRefundRequest): (r: Result<HttpRequest, Error>)
    ensures r.Success? <==> RefundValidation(f).Pass?
    ensures r.Failure? ==> r.error == RefundValidation(f).error
    ensures r.Success? ==> r.value == HttpRequest(Post, TransactionRefundsEndpoint, RefundBody(f))
  {
    Guarded(RefundValidation(f), HttpRequest(Post, TransactionRefundsEndpoint, RefundBody(f)))
  }

  /** `UpdateRefundAsync`: the id pair check is run and its answer dropped, so
      only the path builder's check of the transaction id remains. */
  function UpdateRefundRequest(f: TaxjarRefundRequest): (r: Result<HttpRequest, Error>)
    ensures r.Success? <==> !Blank(f.transactionId)
    ensures r.Failure? ==> r.error == ArgumentError(MissingTransactionId, None)
    ensures r.Success? ==> r.value == HttpRequest(Put, ShowRefundPath(f.transactionId, None).value, RefundBody(f))
  {
    var _ := RefundIdPairCheck(f);
    AtPath(Put, ShowRefundPath(f.transactionId, None), RefundBody(f))
  }

  function ValidateAddressRequest(address: Address): HttpRequest {
    HttpRequest(Post, AddressesValidateEndpoint, AddressBody(address))
  }

  function ValidateVatRequest(vatNumber: string): (r: Result<HttpRequest, Error>)
    ensures r.Success? <==> !Blank(vatNumber)
    ensures r.Failure? ==> r.error == ArgumentError(MissingCustomerVat, None)
    ensures r.Success? ==> r.value == HttpRequest(Get, "validation/" + vatNumber, NoBody)
  {
    Guarded(ValidateVat(vatNumber), HttpRequest(Get, ResourcePath(ValidationEndpoint, vatNumber), NoBody))
  }

  /** A request that fails its validation is never sent: for each operation
      with a check, the exchange sends nothing exactly when the check fails, and
      then answers with the check's error. */
  lemma InvalidRequestsAreNotSent<E, T>(client: Client, send: (Client, HttpRequest) -> HttpResponse,
                                        decodeError: Decoder<TaxjarError>, decodeBody: Decoder<E>, unwrap: E -> Option<T>,
                                        c: TaxjarCustomerRequest, t: TaxjarTaxCalculationRequest,
                                        o: TaxjarOrderRequest, f: TaxjarRefundRequest)
    ensures Execute(CreateCustomerRequest(c), client, send, decodeError, decodeBody, unwrap).sent == []
        <==> CustomerValidation(c).Fail?
    ensures Execute(TaxForOrderRequest(t), client, send, decodeError, decodeBody, unwrap).sent == []
        <==> TaxCalculationValidation(t).Fail?
    ensures Execute(CreateOrderRequest(o), client, send, decodeError, decodeBody, unwrap).sent == []
        <==> CreateOrderValidation(o).Fail?
    ensures Execute(CreateRefundRequest(f), client, send, decodeError, decodeBody, unwrap).sent == []
        <==> RefundValidation(f).Fail?
    ensures CreateOrderValidation(o).Fail? ==>
      Execute(CreateOrderRequest(o), client, send, decodeError, decodeBody, unwrap).result
        == Failure(CreateOrderValidation(o).error)
  {
  }

  /** A refund update with a blank reference id is still sent: only a blank
      transaction id stops it, though the pair check names the reference id. */
  lemma UpdateRefundIgnoresReferenceId(f: TaxjarRefundRequest)
    requires !Blank(f.transactionId) && Blank(f.transactionReferenceId)
    ensures UpdateRefundRequest(f).Success?
    ensures RefundIdPairCheck(f) == Some(["TransactionReferenceId"])
    ensures CreateRefundRequest(f).Failure?
  {
    assert Flag("TransactionId", Blank(f.transactionId)) == [];
    assert Flag("TransactionReferenceId", Blank(f.transactionReferenceId)) == ["TransactionReferenceId"];
    assert RefundIdMissing(f) == ["TransactionReferenceId"];
  }

  // ---------------------------------------------------------------------
  // The facade

  /** `TaxjarApi`: the state a constructed client keeps. */
  class TaxjarApi {
    var headers: seq<(string, string)>
    var apiUrl: string
    var apiToken: string
    var userAgent: string
    var timeout: int

    /** The assignments of the constructor after the token check. */
    constructor (options: ApiOptions, runtime: RuntimeInfo)
      requires !NullOrBlank(options.apiToken)
      ensures apiToken == options.apiToken.value && apiUrl == GetApiUrl(options)
      ensures headers == options.headers && timeout == options.timeoutMs
      ensures userAgent == UserAgentText(runtime, options.apiVersion)
    {
      apiToken := options.apiToken.value;
      apiUrl := GetApiUrl(options);
      headers := options.headers;
      timeout := options.timeoutMs;
      userAgent := UserAgentText(runtime, options.apiVersion);
    }

    /** `new TaxjarApi(factory, options)`: a blank token is refused before anything is set. */
    static method Create(options: ApiOptions, runtime: RuntimeInfo) returns (r: Result<TaxjarApi, Error>)
      ensures r.Failure? <==> NullOrBlank(options.apiToken)
      ensures r.Failure? ==> r.error == ArgumentError(MissingApiKey, Some("options"))
      ensures r.Success? ==> fresh(r.value) && r.value.apiToken == options.apiToken.value
      ensures r.Success? ==> r.value.apiUrl == GetApiUrl(options) && EndsWithSlash(r.value.apiUrl)
      ensures r.Success? ==> r.value.headers == options.headers && r.value.timeout == options.timeoutMs
      ensures r.Success? ==> r.value.userAgent == UserAgentText(runtime, options.apiVersion)
    {
      var check := ApiKeyCheck(options.apiToken);
      if check.Fail? {
        return Failure(check.error);
      }
      var api := new TaxjarApi(options, runtime);
      return Success(api);
    }

    /** The header part of `CreateClient`: Authorization, Accept and the
        computed User-Agent first, then each custom header in turn, the
        reserved ones skipped and a User-Agent one also added as a product. */
    method CreateClientHeaders() returns (h: ClientHeaders)
      ensures h == ExpectedHeaders(apiToken, userAgent, headers)
    {
      h := ClientHeaders((BearerScheme, apiToken), [ContentType], [userAgent], []);
      var i := 0;
      while i < |headers|
        invariant 0 <= i <= |headers|
        invariant h == ClientHeaders((BearerScheme, apiToken), [ContentType],
                                     [userAgent] + CustomUserAgents(headers[..i]), PassedHeaders(headers[..i]))
      {
        var key := headers[i].0;
        var value := headers[i].1;
        assert headers[..i + 1][..i] == headers[..i];
        i := i + 1;
        if IsReservedHeader(key) {
          continue;
        }
        if IsUserAgentHeader(key) {
          h := h.(userAgent := h.userAgent + [value]);
        }
        h := h.(added := h.added + [(key, value)]);
      }
      assert headers[..i] == headers;
    }

    /** `CreateClient`: the base address, the headers and the timeout. */
    method CreateClient() returns (client: Client)
      ensures client == Client(apiUrl, ExpectedHeaders(apiToken, userAgent, headers), timeout)
    {
      var h := CreateClientHeaders();
      client := Client(apiUrl, h, timeout);
    }

    /** An operation of the facade: the planned request is sent with a client
        made by `CreateClient`, and only when the plan succeeded. */
    method Send<E, T>(plan: Result<HttpRequest, Error>, send: (Client, HttpRequest) -> HttpResponse,
                      decodeError: Decoder<TaxjarError>, decodeBody: Decoder<E>, unwrap: E -> Option<T>)
      returns (x: Exchange<T>)
      ensures x == Execute(plan, Client(apiUrl, ExpectedHeaders(apiToken, userAgent, headers), timeout),
                           send, decodeError, decodeBody, unwrap)
      ensures plan.Success? ==> x.sent == [plan.value]
      ensures plan.Failure? ==> x == Exchange([], Failure(plan.error))
    {
      if plan.Failure? {
        return Exchange([], Failure(plan.error));
      }
      var client := CreateClient();
      x := Execute(plan, client, send, decodeError, decodeBody, unwrap);
    }
  }
}
