# X::Client, modelled in Dafny

`X::Client` (`lib/x/client.rb`) is a small HTTP client for the Twitter/X REST API.
It is constructed in one of two authentication modes and then exposes four verb
methods, `get`, `post`, `put` and `delete`. Each verb call does four things:

1. It builds a request for `base_url + endpoint`.
2. It authorizes the request: `Authorization: Bearer <token>` in bearer mode, an
   OAuth 1.0a signature otherwise.
3. It sends the request once.
4. It classifies the response by status code. A 2xx response gives the parsed body;
   401, 5xx and every other code raise three different errors.

The project has three modules:

- `Wrappers` (`wrappers.dfy`): `Option` and `Result`. `Result` plays Ruby's raised
  exceptions.
- `NetHttp` (`net_http.dfy`): the parts of Net::HTTP the client uses. `Verb` stands for
  the four request classes. `Request` is a request object whose body and headers are
  assigned in place. `Response` has the three response-class tests the client matches
  on. `Transport` records every request it is handed and answers each one with a
  caller-supplied `reply` function.
- `X` (`client.dfy`): the client itself. The pure rules are functions: the method
  table, the credential check, URL concatenation, request shaping, authorization and
  response classification. The object is the `Client` class. Its methods create the
  request object, write the Authorization header into it, send it, and compose these
  into the verb methods.

`Value` models a Ruby argument as the client's checks see it: `nil`, `false` or a
string. This matters because the code uses two different tests. Bearer mode is chosen
by `!bearer_token.nil?`, while the OAuth credentials and the request body are tested
for truthiness. So `bearer_token: false` selects bearer mode and yields the header
`Bearer false`, and empty strings pass the OAuth check.

The OAuth signer (`sign`), the JSON parser (`parse`) and the network (`net`) are
collaborators held by the `Client` object. The model never looks inside them.

The model follows the code on these points:

- The code checks OAuth credentials for presence (Ruby truthiness), not for being
  non-empty.
- The code has no redirect handling, no per-call headers, no decode shapes and no
  `max_redirects`.
- The URL is plain concatenation. So `get("/old_endpoint")` goes to
  `https://api.twitter.com/2//old_endpoint` (lemmas `LeadingSlashKept` and
  `OldEndpointUrl`). The redirect tests in `test/x/client_request_test.rb` expect
  `https://api.twitter.com/old_endpoint`.
- That test file is written against a different `Client` from the modelled one. Its
  `setup` calls `Client.new` with no arguments (line 8). The modelled constructor
  raises "Missing OAuth credentials." for that call (lemma `NoArgumentsRejected`). The
  tests also pass `max_redirects:` (line 57), which `initialize` does not accept. So
  `TweetsUrl` states a fact about the modelled URL rule. It does not claim that the
  test passes against this code.

## Model

| member | source | states |
|---|---|---|
| `X.Value.Truthy` | lib/x/client.rb:56 | a value passes the truthiness tests of the credential check and the body check exactly when it is neither nil nor false, and then it is a string |
| `X.Value.Interpolated` | lib/x/client.rb:87 | interpolation keeps a string verbatim; nil gives "" and false gives "false" |
| `NetHttp.Response.IsSuccess` | lib/x/client.rb:95 | a response is an HTTPSuccess exactly when the leading digit of its code is 2 |
| `NetHttp.Response.IsUnauthorized` | lib/x/client.rb:97 | an HTTPUnauthorized response (401) is a client error and never a success |
| `NetHttp.Response.IsServerError` | lib/x/client.rb:99 | a response is an HTTPServerError exactly when the leading digit of its code is 5 |
| `X.LookupMethod` | lib/x/client.rb:76-78 | the lookup succeeds exactly for the symbols get, post, put and delete, and the class found is the one listed under that symbol |
| `X.MethodTableRoundTrip` | lib/x/client.rb:10-15 | the method table is a bijection: each request class is found under its own symbol and under no other |
| `X.OAuthCredentials` | lib/x/client.rb:55-62 | OAuth setup raises ArgumentError exactly when one of the four credentials is nil or false; otherwise the consumer keeps the key, the secret and the base URL as its site, and the token keeps the access token and its secret |
| `X.SelectAuth` | lib/x/client.rb:17-27 | bearer mode is chosen exactly when the bearer token is not nil, and it stores that token; otherwise the outcome is the OAuth setup's |
| `X.ConstructionFailsIffOAuthIncomplete` | lib/x/client.rb:55-58 | construction fails exactly when no bearer token is given and some OAuth credential is nil or false, and the failure is always the missing-credentials ArgumentError |
| `X.BearerModeIgnoresOAuthArguments` | lib/x/client.rb:20-26 | with a bearer token, construction always succeeds and its outcome does not depend on any OAuth argument |
| `X.EmptyOAuthStringsAccepted` | lib/x/client.rb:56-58 | four empty-string credentials pass the check, since it tests truthiness and not non-emptiness |
| `X.NoArgumentsRejected` | test/x/client_request_test.rb:8 | `Client.new` with no arguments raises the missing-credentials ArgumentError, whatever the base URL |
| `X.Url` | lib/x/client.rb:65 | the URL is the base URL followed by the endpoint, with nothing inserted, removed or changed |
| `X.UrlDeterminesEndpoint` | lib/x/client.rb:65 | for one base URL, two endpoints give the same URL exactly when they are equal |
| `X.TweetsUrl` | test/x/client_request_test.rb:13-16 | with the default base URL, endpoint "tweets" gives https://api.twitter.com/2/tweets |
| `X.LeadingSlashKept` | lib/x/client.rb:65 | an endpoint with a leading slash keeps it after the base URL's trailing slash, which gives a double slash |
| `X.OldEndpointUrl` | lib/x/client.rb:65 | with the default base URL, endpoint "/old_endpoint" gives https://api.twitter.com/2//old_endpoint |
| `X.NewRequest` | lib/x/client.rb:75-83 | an unknown method symbol raises ArgumentError naming it and builds no request; otherwise the request has that method and URL, and its body is set exactly when the body is truthy and the method is not get, and then it equals the given body unchanged |
| `X.GetNeverCarriesBody` | lib/x/client.rb:81 | a GET request never carries a body, whatever body is passed |
| `X.Authorized` | lib/x/client.rb:85-91 | authorization adds or overwrites only the Authorization header and leaves method, URL, body and every other header alone; the header is "Bearer " plus the interpolated token in bearer mode, and in OAuth mode the signer's value for the request and the number of earlier sends, which stands for the fresh nonce and timestamp |
| `X.BearerHeaderIgnoresRequest` | lib/x/client.rb:86-87 | in bearer mode the header depends only on the stored token, not on the request, the signer or the number of earlier sends |
| `X.FalseTokenReadsAsText` | lib/x/client.rb:87 | a false bearer token gives the header "Bearer false", the same as the string "false" |
| `X.BearerHeaderDeterminesToken` | lib/x/client.rb:87 | two bearer headers are equal exactly when the interpolated tokens are equal, so the token appears in the header verbatim |
| `X.HandleResponse` | lib/x/client.rb:93-104 | a 2xx code gives the parsed body; 401 gives AuthenticationError; a 5xx code gives ServerError; every other code gives the generic error with that code and message; it never raises ArgumentError |
| `X.StatusPartition` | lib/x/client.rb:94-103 | every status code is admitted by exactly one arm of the case (2xx, 401, 5xx, else), and the response handler takes that arm |
| `X.FailureIgnoresBody` | lib/x/client.rb:97-103 | for a non-2xx code the outcome depends only on the code and message, not on the body or the parser |
| `X.Client.Outgoing` | lib/x/client.rb:64-70 | the request a send hands to the network is the built request for base URL plus endpoint, authorized for that send's position on the network; an unknown method symbol gives the ArgumentError instead |
| `X.Client.CreateRequest` | lib/x/client.rb:75-83 | builds a fresh request object whose contents are `NewRequest`'s, or raises the same ArgumentError |
| `X.Client.AddAuthorization` | lib/x/client.rb:85-91 | updates the request in place so that its contents become `Authorized` of its old contents, signed fresh for the next send |
| `X.Client.SendRequest` | lib/x/client.rb:64-73 | an unknown method symbol sends nothing and raises; otherwise exactly the outgoing request is appended to the network's log and its reply is returned |
| `X.Client.Get` | lib/x/client.rb:29-32 | exactly one request is sent: a GET to base URL plus endpoint with no body and with authorization; the result is the response handler's outcome for that single reply |
| `X.Client.Post` | lib/x/client.rb:34-37 | exactly one POST is sent, carrying the body exactly when it is truthy; the result is the response handler's outcome for that single reply |
| `X.Client.Put` | lib/x/client.rb:39-42 | exactly one PUT is sent, carrying the body exactly when it is truthy; the result is the response handler's outcome for that single reply |
| `X.Client.Delete` | lib/x/client.rb:44-47 | exactly one DELETE is sent, with no body; the result is the response handler's outcome for that single reply |
| `X.NewClient` | lib/x/client.rb:17-27 | construction raises exactly when `SelectAuth` does; otherwise a new client holds the given base URL (by default https://api.twitter.com/2/) and the selected authentication state |
| `NetHttp.Transport.Send` | lib/x/client.rb:72 | the request is appended to the log of sent requests and answered by the network's reply function |

## Left out

- Transport: `Net::HTTP.new(host, port)`, `use_ssl = true` and the socket and TLS I/O of
  `http.request` are not modelled. The network is the `Transport` object. Transport
  failures, which Ruby propagates unchanged, are not represented.
- `URI.parse`: the URL is kept as a string. A malformed URL, which `URI.parse` would
  reject, is not modelled.
- OAuth signing: `OAuth::Consumer`, `OAuth::Token` and `sign!` belong to a foreign
  library. Signing is the opaque function `sign`, whose result becomes the
  Authorization header.
- X.Authorized: the fresh nonce and timestamp of an OAuth 1.0a signature are not drawn
  from a clock or random source. The signer receives the number of requests sent before
  this one instead. So two sends of one request may be signed differently, but the model
  does not promise that they are.
- X.Authorized: Net::HTTP's header writer raises `ArgumentError` for a value containing
  CR or LF, for example a bearer token with a newline. The model does not raise here, and
  it writes the header whatever it contains.
- X.NewRequest: `Net::HTTP::Get.new(url)` and the other request classes raise
  `ArgumentError` for a URL that parses but is not an http(s) URL with a host, for
  example base URL `"api.twitter.com/2/"`. The model does not check this. Its only
  failure is an unknown method symbol.
- JSON parsing: `JSON.parse` is the opaque function `parse`. Its own failures belong to
  the library and are not modelled.
- Error messages: only the kind of error is modelled. The generic error also carries
  the code and message.
- Net::HTTP internals: the default headers a request object gets are not modelled, nor
  are case-insensitive header names. The response code is an integer classified by
  range, where Net::HTTP maps a code string to a response class.
- `endpoint` and `base_url` are strings in the model. A nil, false or other non-string
  value for them is not modelled. Construction accepts such a base URL unchecked, and
  the first send fails at `@base_url + endpoint`: `NoMethodError` for a nil or false
  base URL, `TypeError` for a non-string endpoint.
- Body and credential values other than `nil`, `false` and strings (numbers, symbols,
  `true`) are not modelled.
- Redirect following, `max_redirects`, per-call `headers:`, the `object_class` and
  `array_class` decode shapes, and `X::RequestBuilder` appear only in the tests. The
  modelled client does none of them.
