/** The API client: its construction from a default configuration and a list
    of options, the classification of HTTP statuses every call goes through,
    and how each call composes its URL and the signed headers. The transport
    itself, the clock, the nonce generator and HMAC-SHA256 with base64 are
    not modelled: the values they produce are parameters. */
module SwitchBot {
  import opened Wrappers
  import opened Text

  const DefaultEndpoint := "https://api.switch-bot.com"

  /** An `*http.Client`: only its identity matters to the client. */
  datatype HttpClient = DefaultHttpClient | CustomHttpClient(id: nat)

  /** The settings `New` and the options write. */
  datatype Config = Config(httpClient: HttpClient, openToken: string, secretKey: string, endpoint: string, debug: bool)

  /** The values of the `Option` closures `WithHTTPClient`, `WithEndpoint`
      and `WithDebug`. */
  datatype ClientOption =
    | WithHTTPClient(client: HttpClient)
    | WithEndpoint(endpoint: string)
    | WithDebug

  /** The configuration `New` starts from, before any option. */
  function DefaultConfig(openToken: string, secretKey: string): (c: Config)
    ensures c.endpoint == DefaultEndpoint && !c.debug && c.httpClient == DefaultHttpClient
    ensures c.openToken == openToken && c.secretKey == secretKey
  {
    Config(DefaultHttpClient, openToken, secretKey, DefaultEndpoint, false)
  }

  /** What one option closure does to the client it is applied to. */
  function Apply(c: Config, o: ClientOption): Config {
    match o
    case WithHTTPClient(h) => c.(httpClient := h)
    case WithEndpoint(e) => c.(endpoint := e)
    case WithDebug => c.(debug := true)
  }

  /** The options applied left to right. */
  function ApplyAll(c: Config, opts: seq<ClientOption>): Config
    decreases |opts|
  {
    if opts == [] then c else ApplyAll(Apply(c, opts[0]), opts[1..])
  }

  /** Applying one more option after a list of them. */
  lemma {:induction false} ApplyAllSnoc(c: Config, opts: seq<ClientOption>, o: ClientOption)
    ensures ApplyAll(c, opts + [o]) == Apply(ApplyAll(c, opts), o)
    decreases |opts|
  {
    if opts == [] {
      assert opts + [o] == [o];
    } else {
      assert (opts + [o])[1..] == opts[1..] + [o];
      ApplyAllSnoc(Apply(c, opts[0]), opts[1..], o);
    }
  }

  /** Reference reading of a list of options: the endpoint of the last
      `WithEndpoint`, if any. */
  function LastEndpoint(opts: seq<ClientOption>): Option<string>
    decreases |opts|
  {
    if opts == [] then None
    else if opts[|opts| - 1].WithEndpoint? then Some(opts[|opts| - 1].endpoint)
    else LastEndpoint(opts[..|opts| - 1])
  }

  /** The client of the last `WithHTTPClient`, if any. */
  function LastHttpClient(opts: seq<ClientOption>): Option<HttpClient>
    decreases |opts|
  {
    if opts == [] then None
    else if opts[|opts| - 1].WithHTTPClient? then Some(opts[|opts| - 1].client)
    else LastHttpClient(opts[..|opts| - 1])
  }

  /** The last `WithEndpoint` wins; without one the endpoint is unchanged. The
      same holds for the HTTP client. The tokens are never changed, and debug
      is on exactly when it was or some option turns it on. */
  lemma {:induction false} ApplyAllEffect(c: Config, opts: seq<ClientOption>)
    ensures ApplyAll(c, opts).endpoint == (match LastEndpoint(opts) case Some(e) => e case None => c.endpoint)
    ensures ApplyAll(c, opts).httpClient == (match LastHttpClient(opts) case Some(h) => h case None => c.httpClient)
    ensures ApplyAll(c, opts).openToken == c.openToken && ApplyAll(c, opts).secretKey == c.secretKey
    ensures ApplyAll(c, opts).debug <==> c.debug || exists i :: 0 <= i < |opts| && opts[i].WithDebug?
    decreases |opts|
  {
    if opts != [] {
      var init, o := opts[..|opts| - 1], opts[|opts| - 1];
      assert opts == init + [o];
      ApplyAllSnoc(c, init, o);
      ApplyAllEffect(c, init);
      if o.WithDebug? {
        assert opts[|opts| - 1].WithDebug?;
      }
      assert forall i :: 0 <= i < |init| ==> init[i] == opts[i];
    }
  }

  /** Order matters: of two endpoints, the later one is used. */
  lemma LaterEndpointWins(c: Config, first: string, second: string)
    ensures ApplyAll(c, [WithEndpoint(first), WithEndpoint(second)]).endpoint == second
    ensures ApplyAll(c, [WithEndpoint(first), WithDebug]).endpoint == first
  {
    ApplyAllEffect(c, [WithEndpoint(first), WithEndpoint(second)]);
    ApplyAllEffect(c, [WithEndpoint(first), WithDebug]);
    assert [WithEndpoint(first), WithDebug][..1] == [WithEndpoint(first)];
  }

  /** `DeviceService`, `SceneService` and `WebhookService`: each holds the
      pointer to the client it was created for. */
  class DeviceService {
    const client: Client

    constructor (client: Client)
      ensures this.client == client
    {
      this.client := client;
    }
  }

  class SceneService {
    const client: Client

    constructor (client: Client)
      ensures this.client == client
    {
      this.client := client;
    }
  }

  class WebhookService {
    const client: Client

    constructor (client: Client)
      ensures this.client == client
    {
      this.client := client;
    }
  }

  /** `Client`. */
  class Client {
    var httpClient: HttpClient
    var openToken: string
    var secretKey: string
    var endpoint: string
    var debug: bool
    var deviceService: DeviceService?
    var sceneService: SceneService?
    var webhookService: WebhookService?

    /** The configuration the client currently holds. */
    function Settings(): Config
      reads this
    {
      Config(httpClient, openToken, secretKey, endpoint, debug)
    }

    /** The three services point back to this client. */
    predicate Wired()
      reads this, deviceService, sceneService, webhookService
    {
      && deviceService != null && sceneService != null && webhookService != null
      && deviceService.client == this && sceneService.client == this && webhookService.client == this
    }

    /** `New`: the defaults, then the services, then each option in order.
        The services keep pointing to this client, so they see the
        configuration the options leave. */
    constructor New(openToken: string, secretKey: string, opts: seq<ClientOption>)
      ensures Settings() == ApplyAll(DefaultConfig(openToken, secretKey), opts)
      ensures Wired()
      ensures fresh(deviceService) && fresh(sceneService) && fresh(webhookService)
    {
      httpClient := DefaultHttpClient;
      this.openToken := openToken;
      this.secretKey := secretKey;
      endpoint := DefaultEndpoint;
      debug := false;
      new;
      deviceService := new DeviceService(this);
      sceneService := new SceneService(this);
      webhookService := new WebhookService(this);
      var i := 0;
      while i < |opts|
        invariant 0 <= i <= |opts|
        invariant Settings() == ApplyAll(DefaultConfig(openToken, secretKey), opts[..i])
        invariant Wired()
        invariant fresh(deviceService) && fresh(sceneService) && fresh(webhookService)
      {
        ApplyAllSnoc(DefaultConfig(openToken, secretKey), opts[..i], opts[i]);
        assert opts[..i + 1] == opts[..i] + [opts[i]];
        ApplyOption(opts[i]);
        i := i + 1;
      }
      assert opts[..i] == opts;
    }

    /** Calling one option closure on the client: it assigns the one field
        it names. */
    method ApplyOption(o: ClientOption)
      modifies this
      ensures Settings() == Apply(old(Settings()), o)
      ensures deviceService == old(deviceService) && sceneService == old(sceneService) && webhookService == old(webhookService)
    {
      match o
      case WithHTTPClient(h) => httpClient := h;
      case WithEndpoint(e) => endpoint := e;
      case WithDebug => debug := true;
    }
  }

  // ---------------------------------------------------------------------
  // HTTP statuses

  const BadRequestText := "client has issues an invalid request"
  const UnauthorizedText := "authorization for the API is required but the request has not been authenticated"
  const ForbiddenText := "the request has been authenticated but does not have permission or the resource is not found"
  const NotAcceptableText := "the client has requestd a MIM typ via the Accept header for a value not supported by the server"
  const UnsupportedMediaTypeText := "the client has defined a Content-Type header that is not supported by the server"
  const UnprocessableEntityText := "the client has made a valid request but the server cannot process it"
  const TooManyRequestsText := "the client has exceeded the number of requests allowed for a givn time window"
  const InternalServerErrorText := "an unexpected error on the server has occurred"

  /** The HTTP statuses `do` turns into errors. */
  const HttpErrorStatuses: set<int> := {400, 401, 403, 406, 415, 422, 429, 500}

  /** The error `do` returns for an HTTP status, if any. */
  function HttpStatusError(status: int): (r: Option<Error>)
    ensures r.Some? <==> status in HttpErrorStatuses
    ensures r.Some? ==> r.value.Message?
  {
    if status == 400 then Some(Message(BadRequestText))
    else if status == 401 then Some(Message(UnauthorizedText))
    else if status == 403 then Some(Message(ForbiddenText))
    else if status == 406 then Some(Message(NotAcceptableText))
    else if status == 415 then Some(Message(UnsupportedMediaTypeText))
    else if status == 422 then Some(Message(UnprocessableEntityText))
    else if status == 429 then Some(Message(TooManyRequestsText))
    else if status == 500 then Some(Message(InternalServerErrorText))
    else None
  }

  /** An HTTP response as `do` receives it from the transport. */
  datatype HttpResponse = HttpResponse(status: int, body: seq<int>)

  /** The outcome of `do` once the transport has answered: an error for the
      listed statuses, otherwise the response itself, for its envelope to be
      decoded. */
  function CheckResponse(resp: HttpResponse): (r: Result<HttpResponse, Error>)
    ensures r.Failure? <==> resp.status in HttpErrorStatuses
    ensures r.Success? ==> r.value == resp
    ensures r.Failure? ==> Some(r.error) == HttpStatusError(resp.status)
  {
    match HttpStatusError(resp.status)
    case Some(e) => Failure(e)
    case None => Success(resp)
  }

  /** Each refused status has its own message. */
  lemma HttpMessagesDistinct(a: int, b: int)
    requires HttpStatusError(a).Some? && HttpStatusError(a) == HttpStatusError(b)
    ensures a == b
  {
  }

  /** Not found, service unavailable and any other unlisted status are passed
      on unchanged, as is success. */
  lemma UnlistedStatusesPassThrough(body: seq<int>)
    ensures CheckResponse(HttpResponse(404, body)) == Success(HttpResponse(404, body))
    ensures CheckResponse(HttpResponse(503, body)) == Success(HttpResponse(503, body))
    ensures CheckResponse(HttpResponse(200, body)) == Success(HttpResponse(200, body))
  {
  }

  // ---------------------------------------------------------------------
  // Request composition

  /** The URL of a call: the endpoint and the path concatenated, with no
      separator added or removed. */
  function RequestURL(endpoint: string, path: string): (url: string)
    ensures |url| == |endpoint| + |path|
    ensures url[..|endpoint|] == endpoint && url[|endpoint|..] == path
  {
    endpoint + path
  }

  /** An endpoint given with a trailing slash yields a doubled slash. */
  lemma TrailingSlashDoubles(endpoint: string, path: string)
    requires |endpoint| > 0 && endpoint[|endpoint| - 1] == '/'
    requires |path| > 0 && path[0] == '/'
    ensures RequestURL(endpoint, path)[|endpoint| - 1..|endpoint| + 1] == "//"
  {
    var url := RequestURL(endpoint, path);
    assert url[|endpoint| - 1] == endpoint[|endpoint| - 1];
    assert url[|endpoint|] == path[0];
  }

  /** The string `do` signs: the token, the time in decimal milliseconds and
      the nonce, concatenated. */
  function SignatureInput(openToken: string, millis: int, nonce: string): (s: string)
    ensures |s| > |openToken| + |nonce|
    ensures s[..|openToken|] == openToken && s[|s| - |nonce|..] == nonce
    ensures s[|openToken|..|s| - |nonce|] == Itoa(millis)
    ensures ParseInt(s[|openToken|..|s| - |nonce|]) == Some(millis)
  {
    var t := Itoa(millis);
    var s := openToken + t + nonce;
    assert s[|openToken|..|s| - |nonce|] == t;
    s
  }

  /** `hmacSHA256String`: the MAC, encoded by the given function, then
      upper-cased. `encodedMac(message, key)` stands for
      base64(HMAC-SHA256(key, message)). */
  function Sign(encodedMac: (string, string) -> string, message: string, key: string): (sign: string)
    ensures |sign| == |encodedMac(message, key)|
    ensures forall i :: 0 <= i < |sign| ==> !IsLowerAscii(sign[i])
    ensures var m := encodedMac(message, key);
      forall i :: 0 <= i < |m| && !IsLowerAscii(m[i]) ==> sign[i] == m[i]
    ensures var m := encodedMac(message, key);
      forall i :: 0 <= i < |m| && IsLowerAscii(m[i]) ==> sign[i] as int == m[i] as int - 32
    ensures ToUpperAscii(sign) == sign
  {
    ToUpperAscii(encodedMac(message, key))
  }

  const ContentType := "application/json; charset=utf8"

  /** A request as `do` hands it to the transport. */
  datatype SignedRequest = SignedRequest(httpMethod: string, url: string, headers: seq<(string, string)>)

  /** `Header.Get`: the first value under a name. */
  function Header(headers: seq<(string, string)>, name: string): Option<string>
    decreases |headers|
  {
    if headers == [] then None
    else if headers[0].0 == name then Some(headers[0].1)
    else Header(headers[1..], name)
  }

  /** The request `do` builds for a client configuration, given the time in
      milliseconds and the nonce it drew. */
  function BuildRequest(c: Config, httpMethod: string, path: string, millis: int, nonce: string,
                        encodedMac: (string, string) -> string): SignedRequest
  {
    var t := Itoa(millis);
    var sign := Sign(encodedMac, SignatureInput(c.openToken, millis, nonce), c.secretKey);
    SignedRequest(httpMethod, RequestURL(c.endpoint, path),
      [("Authorization", c.openToken), ("sign", sign), ("nonce", nonce), ("t", t), ("Content-Type", ContentType)])
  }

  /** A server holding the secret key can check a request: the `sign` header
      is the upper-cased MAC of the `Authorization`, `t` and `nonce` headers
      concatenated, and `t` reads back as the time. */
  lemma RequestVerifies(c: Config, httpMethod: string, path: string, millis: int, nonce: string,
                        encodedMac: (string, string) -> string)
    ensures var r := BuildRequest(c, httpMethod, path, millis, nonce, encodedMac);
      && Header(r.headers, "Authorization") == Some(c.openToken)
      && Header(r.headers, "nonce") == Some(nonce)
      && Header(r.headers, "t") == Some(Itoa(millis)) && ParseInt(Itoa(millis)) == Some(millis)
      && Header(r.headers, "sign") == Some(Sign(encodedMac, c.openToken + Itoa(millis) + nonce, c.secretKey))
      && Header(r.headers, "Content-Type") == Some(ContentType)
      && r.url == c.endpoint + path
  {
    var r := BuildRequest(c, httpMethod, path, millis, nonce, encodedMac);
    var hs := r.headers;
    assert Header(hs, "nonce") == Header(hs[1..], "nonce") == Header(hs[2..], "nonce");
    assert Header(hs, "t") == Header(hs[1..], "t") == Header(hs[2..], "t") == Header(hs[3..], "t");
    assert Header(hs, "Content-Type") == Header(hs[1..], "Content-Type") == Header(hs[2..], "Content-Type")
      == Header(hs[3..], "Content-Type") == Header(hs[4..], "Content-Type");
  }
}
