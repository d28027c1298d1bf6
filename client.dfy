/** X::Client: an HTTP client for one REST API. It is built once in one of two
    authentication modes (a bearer token, or OAuth 1.0a keys), and each verb call
    builds one request, authorizes it, sends it once and classifies the response
    by status code. The OAuth signer, the JSON parser and the network are
    collaborators given from outside: `sign`, `parse` and `net`. */
module X {
  import opened Wrappers
  import opened NetHttp

  /** `DEFAULT_BASE_URL`. */
  const DefaultBaseUrl: string := "https://api.twitter.com/2/"

  /** A Ruby argument as the client's checks see it: `nil`, `false` or a string. */
  datatype Value = Nil | False | Text(text: string) {

    /** Ruby truthiness: everything except `nil` and `false`; the empty string is truthy. */
    predicate Truthy()
      ensures Truthy() <==> this != Nil && this != False
      ensures Truthy() ==> Text?
    {
      Text?
    }

    /** String interpolation, `"#{value}"`: a string is kept verbatim, `nil` gives the
        empty string and `false` gives "false". */
    function Interpolated(): (s: string)
      ensures Text? ==> s == text
      ensures Nil? ==> s == ""
      ensures False? ==> s == "false"
    {
      match this
      case Nil => ""
      case False => "false"
      case Text(s) => s
    }
  }

  /** What `OAuth::Consumer.new(api_key, api_key_secret, site: base_url)` keeps. */
  datatype Consumer = Consumer(key: string, secret: string, site: string)

  /** What `OAuth::Token.new(access_token, access_token_secret)` keeps. */
  datatype AccessToken = AccessToken(token: string, secret: string)

  /** The authentication state fixed at construction: `@use_bearer_token` is
      `BearerToken?`; the bearer variant holds `@bearer_token`, the OAuth variant
      `@consumer` and `@access_token`. */
  datatype Auth = BearerToken(token: Value) | OAuth(consumer: Consumer, accessToken: AccessToken)

  /** `@consumer.sign!(request, @access_token)`: the Authorization header value the
      OAuth library computes for a request. OAuth 1.0a draws a fresh nonce and
      timestamp for every signature; the `nat` argument stands for them and is the
      number of requests the network has been handed before this one, so two sends
      of the same request may be signed differently. The algorithm itself is not
      part of this model. */
  type Signer = (Consumer, AccessToken, Wire, nat) -> string

  datatype ArgumentReason = MissingOAuthCredentials | UnsupportedMethod(name: string)

  /** What a call can raise: Ruby's `ArgumentError`, `X::AuthenticationError`,
      `X::ServerError`, and the generic `X::Error` with the response's code and message. */
  datatype Error =
    | ArgumentError(reason: ArgumentReason)
    | AuthenticationError
    | ServerError
    | UnexpectedResponse(code: int, message: string)

  /** `HTTP_METHODS`: the method symbols the client accepts, with their request classes. */
  const HttpMethods: map<string, Verb> :=
    map["get" := Verb.Get, "post" := Verb.Post, "put" := Verb.Put, "delete" := Verb.Delete]

  /** The symbol under which each request class appears in `HTTP_METHODS`. */
  function MethodName(verb: Verb): string {
    match verb
    case Get => "get"
    case Post => "post"
    case Put => "put"
    case Delete => "delete"
  }

  /** `HTTP_METHODS[http_method]`: `None` plays Ruby's `nil` for an unknown symbol. */
  function LookupMethod(name: string): (r: Option<Verb>)
    ensures r.Some? <==> name in {"get", "post", "put", "delete"}
    ensures r.Some? ==> MethodName(r.value) == name
  {
    if name in HttpMethods then Some(HttpMethods[name]) else None
  }

  /** The table is a bijection between the four symbols and the four request classes. */
  lemma MethodTableRoundTrip(verb: Verb, name: string)
    ensures LookupMethod(MethodName(verb)) == Some(verb)
    ensures LookupMethod(name) == Some(verb) <==> name == MethodName(verb)
  {
  }

  /** `initialize_oauth`: all four OAuth values must be truthy, else `ArgumentError`. */
  function OAuthCredentials(apiKey: Value, apiKeySecret: Value, accessToken: Value, accessTokenSecret: Value,
                            baseUrl: string): (r: Result<Auth, Error>)
    ensures r.Failure? <==> !apiKey.Truthy() || !apiKeySecret.Truthy() || !accessToken.Truthy() || !accessTokenSecret.Truthy()
    ensures r.Failure? ==> r.error == ArgumentError(MissingOAuthCredentials)
    ensures r.Success? ==> r.value.OAuth?
    ensures r.Success? ==> r.value.consumer == Consumer(apiKey.text, apiKeySecret.text, baseUrl)
    ensures r.Success? ==> r.value.accessToken == AccessToken(accessToken.text, accessTokenSecret.text)
  {
    if apiKey.Truthy() && apiKeySecret.Truthy() && accessToken.Truthy() && accessTokenSecret.Truthy() then
      Success(OAuth(Consumer(apiKey.text, apiKeySecret.text, baseUrl),
                    AccessToken(accessToken.text, accessTokenSecret.text)))
    else
      Failure(ArgumentError(MissingOAuthCredentials))
  }

  /** `initialize`: bearer mode exactly when a bearer token is given (not `nil`),
      otherwise OAuth mode with the credential check of `initialize_oauth`. */
  function SelectAuth(bearerToken: Value, apiKey: Value, apiKeySecret: Value, accessToken: Value,
                      accessTokenSecret: Value, baseUrl: string): (r: Result<Auth, Error>)
    ensures (r.Success? && r.value.BearerToken?) <==> bearerToken != Nil
    ensures bearerToken != Nil ==> r == Success(BearerToken(bearerToken))
    ensures bearerToken == Nil ==> r == OAuthCredentials(apiKey, apiKeySecret, accessToken, accessTokenSecret, baseUrl)
  {
    if bearerToken != Nil then Success(BearerToken(bearerToken))
    else OAuthCredentials(apiKey, apiKeySecret, accessToken, accessTokenSecret, baseUrl)
  }

  /** Construction fails exactly in OAuth mode with a missing (nil or false) credential,
      and always with the same `ArgumentError`. */
  lemma ConstructionFailsIffOAuthIncomplete(bearerToken: Value, apiKey: Value, apiKeySecret: Value,
                                            accessToken: Value, accessTokenSecret: Value, baseUrl: string)
    ensures SelectAuth(bearerToken, apiKey, apiKeySecret, accessToken, accessTokenSecret, baseUrl).Failure?
        <==> bearerToken == Nil && (apiKey in {Nil, False} || apiKeySecret in {Nil, False}
                                    || accessToken in {Nil, False} || accessTokenSecret in {Nil, False})
    ensures SelectAuth(bearerToken, apiKey, apiKeySecret, accessToken, accessTokenSecret, baseUrl).Failure?
        ==> SelectAuth(bearerToken, apiKey, apiKeySecret, accessToken, accessTokenSecret, baseUrl).error
            == ArgumentError(MissingOAuthCredentials)
  {
  }

  /** In bearer mode the OAuth arguments are ignored: no check runs on them and the
      resulting state does not depend on them. */
  lemma BearerModeIgnoresOAuthArguments(bearerToken: Value, baseUrl: string,
                                        k1: Value, s1: Value, t1: Value, ts1: Value,
                                        k2: Value, s2: Value, t2: Value, ts2: Value)
    requires bearerToken != Nil
    ensures SelectAuth(bearerToken, k1, s1, t1, ts1, baseUrl) == SelectAuth(bearerToken, k2, s2, t2, ts2, baseUrl)
    ensures SelectAuth(bearerToken, k1, s1, t1, ts1, baseUrl).Success?
  {
  }

  /** The credential check is presence, not non-emptiness: empty strings are accepted. */
  lemma EmptyOAuthStringsAccepted(baseUrl: string)
    ensures SelectAuth(Nil, Text(""), Text(""), Text(""), Text(""), baseUrl)
         == Success(OAuth(Consumer("", "", baseUrl), AccessToken("", "")))
  {
  }

  /** `Client.new` with no arguments at all: no bearer token and no OAuth credentials,
      so construction raises the missing-credentials `ArgumentError`. */
  lemma NoArgumentsRejected(baseUrl: string)
    ensures SelectAuth(Nil, Nil, Nil, Nil, Nil, baseUrl) == Failure(ArgumentError(MissingOAuthCredentials))
  {
  }

  /** `@base_url + endpoint`: plain concatenation, no slash handling or escaping. */
  function Url(baseUrl: string, endpoint: string): (url: string)
    ensures |url| == |baseUrl| + |endpoint|
    ensures url[..|baseUrl|] == baseUrl && url[|baseUrl|..] == endpoint
  {
    baseUrl + endpoint
  }

  /** With one base URL, distinct endpoints give distinct URLs. */
  lemma UrlDeterminesEndpoint(baseUrl: string, e1: string, e2: string)
    ensures Url(baseUrl, e1) == Url(baseUrl, e2) <==> e1 == e2
  {
  }

  /** The default base URL with endpoint "tweets". */
  lemma TweetsUrl()
    ensures Url(DefaultBaseUrl, "tweets") == "https://api.twitter.com/2/tweets"
  {
  }

  /** A leading slash in the endpoint is kept after the base URL's trailing slash, so
      the URL has a double slash where the two meet. */
  lemma LeadingSlashKept(baseUrl: string, endpoint: string)
    requires |baseUrl| > 0 && baseUrl[|baseUrl| - 1] == '/'
    requires |endpoint| > 0 && endpoint[0] == '/'
    ensures Url(baseUrl, endpoint)[|baseUrl| - 1 .. |baseUrl| + 1] == "//"
  {
  }

  /** The default base URL with endpoint "/old_endpoint". */
  lemma OldEndpointUrl()
    ensures Url(DefaultBaseUrl, "/old_endpoint") == "https://api.twitter.com/2//old_endpoint"
  {
  }

  /** `create_request`, as a value: an unknown method symbol raises `ArgumentError` and
      builds nothing; otherwise a request of that class for `url`, with no headers of
      its own, whose body is set only for a truthy body and a method other than `:get`. */
  function NewRequest(name: string, url: string, body: Value): (r: Result<Wire, Error>)
    ensures r.Failure? <==> name !in {"get", "post", "put", "delete"}
    ensures r.Failure? ==> r.error == ArgumentError(UnsupportedMethod(name))
    ensures r.Success? ==> MethodName(r.value.verb) == name && r.value.url == url && r.value.headers == map[]
    ensures r.Success? ==> (r.value.body.Some? <==> body.Truthy() && name != "get")
    ensures r.Success? && r.value.body.Some? ==> r.value.body.value == body.text
  {
    match LookupMethod(name)
    case None => Failure(ArgumentError(UnsupportedMethod(name)))
    case Some(verb) => Success(Wire(verb, url, map[], if body.Truthy() && name != "get" then Some(body.text) else None))
  }

  /** A GET request never carries a body, whatever body is passed. */
  lemma GetNeverCarriesBody(url: string, body: Value)
    ensures NewRequest("get", url, body) == Success(Wire(Verb.Get, url, map[], None))
  {
  }

  /** `add_authorization`, as a value: only the Authorization header changes. In
      bearer mode it is "Bearer " followed by the stored token; in OAuth mode it is
      what the signer computes for the request and the freshness input `n`. */
  function Authorized(auth: Auth, sign: Signer, w: Wire, n: nat): (r: Wire)
    ensures r.verb == w.verb && r.url == w.url && r.body == w.body
    ensures r.headers.Keys == w.headers.Keys + {"Authorization"}
    ensures forall h :: h in w.headers && h != "Authorization" ==> r.headers[h] == w.headers[h]
    ensures auth.BearerToken? ==> r.headers["Authorization"] == "Bearer " + auth.token.Interpolated()
    ensures auth.OAuth? ==> r.headers["Authorization"] == sign(auth.consumer, auth.accessToken, w, n)
  {
    var value := match auth
      case BearerToken(token) => "Bearer " + token.Interpolated()
      case OAuth(consumer, accessToken) => sign(consumer, accessToken, w, n);
    w.(headers := w.headers["Authorization" := value])
  }

  /** In bearer mode the header depends only on the stored token: not on the request,
      not on the OAuth signer and not on how many requests went before. */
  lemma BearerHeaderIgnoresRequest(token: Value, sign1: Signer, sign2: Signer, w1: Wire, w2: Wire, n1: nat, n2: nat)
    ensures Authorized(BearerToken(token), sign1, w1, n1).headers["Authorization"]
         == Authorized(BearerToken(token), sign2, w2, n2).headers["Authorization"]
  {
  }

  /** The header carries the token text verbatim: two bearer headers are equal
      exactly when the interpolated tokens are. */
  lemma BearerHeaderDeterminesToken(t1: Value, t2: Value, sign: Signer, w1: Wire, w2: Wire, n1: nat, n2: nat)
    ensures Authorized(BearerToken(t1), sign, w1, n1).headers["Authorization"]
         == Authorized(BearerToken(t2), sign, w2, n2).headers["Authorization"]
        <==> t1.Interpolated() == t2.Interpolated()
  {
    var h1 := Authorized(BearerToken(t1), sign, w1, n1).headers["Authorization"];
    var h2 := Authorized(BearerToken(t2), sign, w2, n2).headers["Authorization"];
    assert h1[7..] == t1.Interpolated() && h2[7..] == t2.Interpolated();
  }

  /** A `false` bearer token is interpolated as the text "false", so it yields the
      same header as the string "false". */
  lemma FalseTokenReadsAsText(sign: Signer, w: Wire, n: nat)
    ensures Authorized(BearerToken(False), sign, w, n).headers["Authorization"] == "Bearer false"
    ensures Authorized(BearerToken(False), sign, w, n).headers["Authorization"]
         == Authorized(BearerToken(Text("false")), sign, w, n).headers["Authorization"]
  {
  }

  /** `handle_response`: a 2xx response yields the parsed body; 401 raises
      `AuthenticationError`; a 5xx raises `ServerError`; every other code raises the
      generic error with that code and message. */
  function HandleResponse<Tree>(response: Response, parse: string -> Tree): (r: Result<Tree, Error>)
    ensures r.Success? <==> 200 <= response.code <= 299
    ensures r.Success? ==> r.value == parse(response.body)
    ensures r == Failure(AuthenticationError) <==> response.code == 401
    ensures r == Failure(ServerError) <==> 500 <= response.code <= 599
    ensures r.Failure? && r.error.UnexpectedResponse?
        <==> !(200 <= response.code <= 299) && response.code != 401 && !(500 <= response.code <= 599)
    ensures r.Failure? && r.error.UnexpectedResponse? ==> r.error == UnexpectedResponse(response.code, response.message)
    ensures r.Failure? ==> !r.error.ArgumentError?
  {
    if response.IsSuccess() then Success(parse(response.body))
    else if response.IsUnauthorized() then Failure(AuthenticationError)
    else if response.IsServerError() then Failure(ServerError)
    else Failure(UnexpectedResponse(response.code, response.message))
  }

  /** The four arms of the `case` in `handle_response`. */
  datatype Branch = SuccessArm | UnauthorizedArm | ServerErrorArm | ElseArm

  /** Which status codes each arm admits, by Net::HTTP response class: `HTTPSuccess`
      is 200-299, `HTTPUnauthorized` is 401, `HTTPServerError` is 500-599, and the
      `else` arm takes every code none of those admits. */
  predicate Admits(arm: Branch, code: int) {
    match arm
    case SuccessArm => 200 <= code <= 299
    case UnauthorizedArm => code == 401
    case ServerErrorArm => 500 <= code <= 599
    case ElseArm => !(200 <= code <= 299) && code != 401 && !(500 <= code <= 599)
  }

  /** The arm that produced an outcome of `handle_response`. */
  function ArmOf<Tree>(r: Result<Tree, Error>): Branch {
    match r
    case Success(_) => SuccessArm
    case Failure(AuthenticationError) => UnauthorizedArm
    case Failure(ServerError) => ServerErrorArm
    case Failure(_) => ElseArm
  }

  /** Every status code is admitted by exactly one arm, and `handle_response` takes
      that arm. */
  lemma StatusPartition<Tree>(response: Response, parse: string -> Tree)
    ensures (set arm: Branch | Admits(arm, response.code)) == {ArmOf(HandleResponse(response, parse))}
    ensures |set arm: Branch | Admits(arm, response.code)| == 1
  {
  }

  /** On a non-2xx status the outcome depends on the code and message only: neither
      the body nor the parser matters. */
  lemma FailureIgnoresBody<Tree>(code: int, message: string, body1: string, body2: string,
                                 parse1: string -> Tree, parse2: string -> Tree)
    requires !(200 <= code <= 299)
    ensures HandleResponse(Response(code, message, body1), parse1) == HandleResponse(Response(code, message, body2), parse2)
  {
  }

  /** A client: its base URL and authentication state are fixed at construction;
      `net`, `sign` and `parse` stand for Net::HTTP, the OAuth library and JSON.parse. */
  class Client<Tree> {
    const baseUrl: string
    const auth: Auth
    const net: Transport
    const sign: Signer
    const parse: string -> Tree

    constructor (baseUrl: string, auth: Auth, net: Transport, sign: Signer, parse: string -> Tree)
      requires auth.BearerToken? ==> auth.token != Nil
      requires auth.OAuth? ==> auth.consumer.site == baseUrl
      ensures this.baseUrl == baseUrl && this.auth == auth
      ensures this.net == net && this.sign == sign && this.parse == parse
    {
      this.baseUrl := baseUrl;
      this.auth := auth;
      this.net := net;
      this.sign := sign;
      this.parse := parse;
    }

    /** The request `send_request(name, endpoint, body)` hands to the network when `n`
        requests went before it, or the error it raises before sending. */
    function Outgoing(name: string, endpoint: string, body: Value, n: nat): (r: Result<Wire, Error>)
      ensures r.Failure? <==> NewRequest(name, Url(baseUrl, endpoint), body).Failure?
      ensures r.Failure? ==> r.error == ArgumentError(UnsupportedMethod(name))
      ensures r.Success? ==> r.value == Authorized(auth, sign, NewRequest(name, Url(baseUrl, endpoint), body).value, n)
    {
      match NewRequest(name, Url(baseUrl, endpoint), body)
      case Failure(e) => Failure(e)
      case Success(w) => Success(Authorized(auth, sign, w, n))
    }

    /** `create_request`: builds the request object in place. */
    method CreateRequest(name: string, url: string, body: Value) returns (r: Result<Request, Error>)
      ensures r.Failure? ==> NewRequest(name, url, body) == Failure(r.error)
      ensures r.Success? ==> fresh(r.value) && NewRequest(name, url, body) == Success(r.value.Snapshot())
    {
      var verb := LookupMethod(name);
      if verb.None? {
        return Failure(ArgumentError(UnsupportedMethod(name)));
      }
      var request := new Request(verb.value, url);
      if body.Truthy() && name != "get" {
        request.body := Some(body.text);
      }
      return Success(request);
    }

    /** `add_authorization`: writes the Authorization header into the request; an
        OAuth signature is fresh for the next send on the network. */
    method AddAuthorization(request: Request)
      modifies request
      ensures request.Snapshot() == Authorized(auth, sign, old(request.Snapshot()), |net.sent|)
    {
      match auth
      case BearerToken(token) =>
        request.headers := request.headers["Authorization" := "Bearer " + token.Interpolated()];
      case OAuth(consumer, accessToken) =>
        request.headers := request.headers["Authorization" := sign(consumer, accessToken, request.Snapshot(), |net.sent|)];
    }

    /** `send_request`: build, authorize, send once; nothing is sent when the method
        symbol is unknown. */
    method SendRequest(name: string, endpoint: string, body: Value) returns (r: Result<Response, Error>)
      modifies net
      ensures Outgoing(name, endpoint, body, |old(net.sent)|).Failure? ==>
                net.sent == old(net.sent) && r == Failure(Outgoing(name, endpoint, body, |old(net.sent)|).error)
      ensures Outgoing(name, endpoint, body, |old(net.sent)|).Success? ==>
                net.sent == old(net.sent) + [Outgoing(name, endpoint, body, |old(net.sent)|).value]
                && r == Success(net.reply(|old(net.sent)|, Outgoing(name, endpoint, body, |old(net.sent)|).value))
    {
      var url := Url(baseUrl, endpoint);
      var request :- CreateRequest(name, url, body);
      AddAuthorization(request);
      var response := net.Send(request.Snapshot());
      return Success(response);
    }

    /** `get(endpoint)`: exactly one GET to the base URL plus endpoint, with no body and
        with authorization; its result is `handle_response` of that one response. */
    method Get(endpoint: string) returns (r: Result<Tree, Error>)
      modifies net
      ensures |net.sent| == |old(net.sent)| + 1 && net.sent[..|old(net.sent)|] == old(net.sent)
      ensures var w := net.sent[|old(net.sent)|];
              && w == Outgoing("get", endpoint, Nil, |old(net.sent)|).value
              && w.verb == Verb.Get && w.url == Url(baseUrl, endpoint) && w.body == None
              && r == HandleResponse(net.reply(|old(net.sent)|, w), parse)
    {
      // the symbol is in HTTP_METHODS, so the send cannot raise ArgumentError
      var response := SendRequest("get", endpoint, Nil);
      r := HandleResponse(response.value, parse);
    }

    /** `post(endpoint, body = nil)`: exactly one POST, carrying the body exactly when it
        is truthy. */
    method Post(endpoint: string, body: Value := Nil) returns (r: Result<Tree, Error>)
      modifies net
      ensures |net.sent| == |old(net.sent)| + 1 && net.sent[..|old(net.sent)|] == old(net.sent)
      ensures var w := net.sent[|old(net.sent)|];
              && w == Outgoing("post", endpoint, body, |old(net.sent)|).value
              && w.verb == Verb.Post && w.url == Url(baseUrl, endpoint)
              && w.body == (if body.Truthy() then Some(body.text) else None)
              && r == HandleResponse(net.reply(|old(net.sent)|, w), parse)
    {
      // the symbol is in HTTP_METHODS, so the send cannot raise ArgumentError
      var response := SendRequest("post", endpoint, body);
      r := HandleResponse(response.value, parse);
    }

    /** `put(endpoint, body = nil)`: exactly one PUT, carrying the body exactly when it
        is truthy. */
    method Put(endpoint: string, body: Value := Nil) returns (r: Result<Tree, Error>)
      modifies net
      ensures |net.sent| == |old(net.sent)| + 1 && net.sent[..|old(net.sent)|] == old(net.sent)
      ensures var w := net.sent[|old(net.sent)|];
              && w == Outgoing("put", endpoint, body, |old(net.sent)|).value
              && w.verb == Verb.Put && w.url == Url(baseUrl, endpoint)
              && w.body == (if body.Truthy() then Some(body.text) else None)
              && r == HandleResponse(net.reply(|old(net.sent)|, w), parse)
    {
      // the symbol is in HTTP_METHODS, so the send cannot raise ArgumentError
      var response := SendRequest("put", endpoint, body);
      r := HandleResponse(response.value, parse);
    }

    /** `delete(endpoint)`: exactly one DELETE, with no body. */
    method Delete(endpoint: string) returns (r: Result<Tree, Error>)
      modifies net
      ensures |net.sent| == |old(net.sent)| + 1 && net.sent[..|old(net.sent)|] == old(net.sent)
      ensures var w := net.sent[|old(net.sent)|];
              && w == Outgoing("delete", endpoint, Nil, |old(net.sent)|).value
              && w.verb == Verb.Delete && w.url == Url(baseUrl, endpoint) && w.body == None
              && r == HandleResponse(net.reply(|old(net.sent)|, w), parse)
    {
      // the symbol is in HTTP_METHODS, so the send cannot raise ArgumentError
      var response := SendRequest("delete", endpoint, Nil);
      r := HandleResponse(response.value, parse);
    }
  }

  /** `Client.new(...)`: keyword arguments default to `nil` and to the default base
      URL; construction raises exactly when `SelectAuth` does, and otherwise fixes the
      base URL and the authentication state. */
  method NewClient<Tree>(net: Transport, sign: Signer, parse: string -> Tree,
                         nameonly bearerToken: Value := Nil, nameonly apiKey: Value := Nil,
                         nameonly apiKeySecret: Value := Nil, nameonly accessToken: Value := Nil,
                         nameonly accessTokenSecret: Value := Nil, nameonly baseUrl: string := DefaultBaseUrl)
    returns (r: Result<Client<Tree>, Error>)
    ensures r.Failure? <==> SelectAuth(bearerToken, apiKey, apiKeySecret, accessToken, accessTokenSecret, baseUrl).Failure?
    ensures r.Failure? ==> r.error == ArgumentError(MissingOAuthCredentials)
    ensures r.Success? ==>
              && fresh(r.value) && r.value.baseUrl == baseUrl
              && r.value.auth == SelectAuth(bearerToken, apiKey, apiKeySecret, accessToken, accessTokenSecret, baseUrl).value
              && r.value.net == net && r.value.sign == sign && r.value.parse == parse
  {
    var auth :- SelectAuth(bearerToken, apiKey, apiKeySecret, accessToken, accessTokenSecret, baseUrl);
    var client := new Client(baseUrl, auth, net, sign, parse);
    return Success(client);
  }
}
