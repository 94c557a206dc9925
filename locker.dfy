/**
  The session: the client record every operation runs against, and NewClient,
  which prepares the HTTP client, posts the login form and decides from the
  decoded reply whether a session was established and what its origin token is.
 */
module Locker {
  import opened Results
  import opened Wire

  /** A cookie store; its contents (the session cookie) are not modelled. */
  class CookieJar {
    constructor ()
    {
    }
  }

  /** The part of net/http's Client the library touches: its timeout and its jar. */
  class HttpClient {
    var timeoutSeconds: int
    var jar: CookieJar?

    constructor (timeoutSeconds: int, jar: CookieJar?)
      ensures this.timeoutSeconds == timeoutSeconds && this.jar == jar
    {
      this.timeoutSeconds := timeoutSeconds;
      this.jar := jar;
    }
  }

  /** The Go Client struct. The base URL is kept in its printed form. */
  class Client {
    var baseURL: string
    var http: HttpClient
    var errors: seq<string>
    var messages: seq<string>
    var origin: string

    constructor (baseURL: string, http: HttpClient, errors: seq<string>, messages: seq<string>, origin: string)
      ensures this.baseURL == baseURL && this.http == http
      ensures this.errors == errors && this.messages == messages && this.origin == origin
    {
      this.baseURL := baseURL;
      this.http := http;
      this.errors := errors;
      this.messages := messages;
      this.origin := origin;
    }
  }

  const DefaultTimeoutSeconds := 30
  const LoginPath := "/cli/CLI_login"
  const LoginFailure := "error logging into filelocker"

  /** The login reply decodes to two message lists and no payload. */
  type LoginResponse = Envelope<()>

  /**
    The login decision: the session is established exactly when the reply has
    no error message and at least one info message, and then the origin token
    is the first info message.
   */
  function LoginOrigin(v: LoginResponse): (origin: Option<string>)
    ensures origin.None? <==> |v.errorMessages| > 0 || |v.infoMessages| == 0
    ensures origin.Some? ==> origin.value == v.infoMessages[0]
  {
    if |v.errorMessages| > 0 || |v.infoMessages| == 0 then None else Some(v.infoMessages[0])
  }

  /** Only the first info message matters: later ones never change the origin. */
  lemma LoginOriginIgnoresLaterInfo(v: LoginResponse, later: seq<string>)
    requires LoginOrigin(v).Some?
    ensures LoginOrigin(v.(infoMessages := v.infoMessages + later)) == LoginOrigin(v)
  {
  }

  /**
    The decision checks only that an info message exists, not that it is
    non-empty: an empty first info message is accepted as the origin.
   */
  lemma EmptyFirstInfoAccepted(v: LoginResponse)
    requires |v.errorMessages| == 0 && |v.infoMessages| > 0 && v.infoMessages[0] == ""
    ensures LoginOrigin(v) == Some("")
  {
  }

  /** The login request: the credentials form posted to the login endpoint, expecting XML. */
  ghost predicate IsLoginRequest(req: Request, userID: string, apiKey: string, baseURL: string)
  {
    && req.verb == "POST"
    && req.url == baseURL + LoginPath
    && req.query == []
    && req.body == FormBody([Param("CLIkey", apiKey), Param("userId", userID)])
    && req.headers == FormHeaders(XmlAccept)
  }

  /** The origin set and the error returned, as the login decision dictates. */
  ghost predicate IsLoginDecision(v: LoginResponse, origin: string, err: Option<string>)
  {
    match LoginOrigin(v)
    case Some(o) => origin == o && err == None
    case None => origin == "" && err == Some(LoginFailure)
  }

  /**
    NewClient. A nil HTTP client is replaced by one with a 30-second timeout; a
    client without a cookie jar gets a fresh one (cookiejar.New with no options
    cannot fail), and an existing jar is kept. Then the base URL is parsed, the
    login form is posted, and the decoded reply decides the outcome. Whenever
    the reply was decoded a client is returned, carrying the reply's error and
    info lists, and its origin is set only on success.
    The URL parser and the server are parameters: `parseURL` gives the printed
    form of the parsed URL or url.Parse's error, `server` the decoded reply to a
    request or the transport, read or decode error.
   */
  method NewClient(userID: string, apiKey: string, baseURL: string, httpClient: HttpClient?,
                   parseURL: string -> IoResult<string>, server: Request -> IoResult<LoginResponse>)
    returns (used: HttpClient, sent: Option<Request>, client: Client?, err: Option<string>)
    modifies httpClient
    ensures httpClient != null ==> used == httpClient && used.timeoutSeconds == old(httpClient.timeoutSeconds)
    ensures httpClient == null ==> fresh(used) && used.timeoutSeconds == DefaultTimeoutSeconds
    ensures used.jar != null
    ensures httpClient != null && old(httpClient.jar) != null ==> used.jar == old(httpClient.jar)
    ensures httpClient == null || old(httpClient.jar) == null ==> fresh(used.jar)
    ensures parseURL(baseURL).IoError? ==>
      sent == None && client == null && err == Some(parseURL(baseURL).message)
    ensures parseURL(baseURL).Ok? ==> sent.Some? && IsLoginRequest(sent.value, userID, apiKey, baseURL)
    ensures sent.Some? && server(sent.value).IoError? ==>
      client == null && err == Some(server(sent.value).message)
    ensures sent.Some? && server(sent.value).Ok? ==>
      client != null && fresh(client) && client.http == used && client.baseURL == parseURL(baseURL).value
    ensures sent.Some? && server(sent.value).Ok? ==>
      && client != null
      && client.errors == server(sent.value).value.errorMessages
      && client.messages == server(sent.value).value.infoMessages
      && IsLoginDecision(server(sent.value).value, client.origin, err)
  {
    var hc := httpClient;
    if hc == null {
      hc := new HttpClient(DefaultTimeoutSeconds, null);
    }
    if hc.jar == null {
      var jar := new CookieJar();
      hc.jar := jar;
    }
    used := hc;

    var parsed := parseURL(baseURL);
    if parsed.IoError? {
      sent, client, err := None, null, Some(parsed.message);
      return;
    }

    var form: Form := [];
    form := Add(form, "CLIkey", apiKey);
    form := Add(form, "userId", userID);
    assert form == [Param("CLIkey", apiKey), Param("userId", userID)];
    var req := Request("POST", baseURL + LoginPath, [], FormHeaders(XmlAccept), FormBody(form));
    sent := Some(req);

    var delivered := server(req);
    if delivered.IoError? {
      client, err := null, Some(delivered.message);
    } else {
      var v := delivered.value;
      client := new Client(parsed.value, hc, v.errorMessages, v.infoMessages, "");
      if |v.errorMessages| > 0 || |v.infoMessages| == 0 {
        err := Some(LoginFailure);
      } else {
        client.origin := v.infoMessages[0];
        err := None;
      }
    }
  }

  /**
    The login form carries the API key under CLIkey and the user under userId,
    each exactly once.
   */
  lemma LoginFormCarriesCredentials(userID: string, apiKey: string)
    ensures ValuesOf([Param("CLIkey", apiKey), Param("userId", userID)], "CLIkey") == [apiKey]
    ensures ValuesOf([Param("CLIkey", apiKey), Param("userId", userID)], "userId") == [userID]
  {
    var form := [Param("CLIkey", apiKey), Param("userId", userID)];
    ValuesOfSingle(form, "CLIkey", 0);
    ValuesOfSingle(form, "userId", 1);
  }
}
