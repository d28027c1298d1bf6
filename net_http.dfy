/** The parts of Ruby's Net::HTTP that the client touches: the four request
    classes, a request object whose body and headers are set in place, the
    response classes it matches on, and the connection that sends a request.
    Sockets, TLS and Net::HTTP's default headers are not part of this model. */
module NetHttp {
  import opened Wrappers

  /** Net::HTTP::Get, Net::HTTP::Post, Net::HTTP::Put, Net::HTTP::Delete. */
  datatype Verb = Get | Post | Put | Delete

  /** A request as it leaves the client: a value snapshot of a `Request`. */
  datatype Wire = Wire(verb: Verb, url: string, headers: map<string, string>, body: Option<string>)

  /** A response as the client reads it: status code, reason phrase and body text. */
  datatype Response = Response(code: int, message: string, body: string) {

    /** `Net::HTTPSuccess`: every 2xx status, the codes whose leading digit is 2. */
    predicate IsSuccess()
      ensures IsSuccess() <==> code / 100 == 2
    {
      200 <= code <= 299
    }

    /** `Net::HTTPUnauthorized`: status 401 only, a client error (4xx) and not a success. */
    predicate IsUnauthorized()
      ensures IsUnauthorized() ==> !IsSuccess() && code / 100 == 4
    {
      code == 401
    }

    /** `Net::HTTPServerError`: every 5xx status, the codes whose leading digit is 5. */
    predicate IsServerError()
      ensures IsServerError() <==> code / 100 == 5
    {
      500 <= code <= 599
    }
  }

  /** A request object (`Net::HTTP::Get.new(url)` and friends): method and URL are
      fixed at creation, body and headers are assigned afterwards. */
  class Request {
    const verb: Verb
    const url: string
    var headers: map<string, string>
    var body: Option<string>

    constructor (verb: Verb, url: string)
      ensures this.verb == verb && this.url == url
      ensures headers == map[] && body == None
    {
      this.verb := verb;
      this.url := url;
      headers := map[];
      body := None;
    }

    /** The request object's method, URL, headers and body as the client set them. */
    function Snapshot(): Wire
      reads this
    {
      Wire(verb, url, headers, body)
    }
  }

  /** The network as the client sees it (`http.request(request)`): it records every
      request handed to it, in order, and answers the n-th one with `reply`. */
  class Transport {
    var sent: seq<Wire>
    const reply: (nat, Wire) -> Response

    constructor (reply: (nat, Wire) -> Response)
      ensures sent == [] && this.reply == reply
    {
      sent := [];
      this.reply := reply;
    }

    method Send(w: Wire) returns (response: Response)
      modifies this
      ensures sent == old(sent) + [w]
      ensures response == reply(|old(sent)|, w)
    {
      response := reply(|sent|, w);
      sent := sent + [w];
    }
  }
}
