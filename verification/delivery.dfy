/**
 * The request `_send_to_gotify` issues. The POST itself and the reading of
 * its response are outside the model: whether Gotify accepted the request
 * (status 200, no exception) is a boolean handed in from outside.
 */
module Delivery {
  import opened Wrappers
  import opened Text
  import opened Settings
  import opened Filtering
  import opened Message

  /** A POST to `url` whose only query parameter is `token`, with `body` as
    * its JSON body. A token `None` stands for Python's `None`. */
  datatype Request = Request(url: string, token: Option<string>, body: Payload) {

    /** The query parameters: exactly one, named `token`. */
    function Params(): (params: map<string, Option<string>>)
      ensures params.Keys == {"token"} && params["token"] == token
    {
      map["token" := token]
    }
  }

  /** The message endpoint: the server address with every trailing `/`
    * removed, followed by `/message`. */
  function EndpointUrl(server: string): (url: string)
    ensures 8 <= |url| <= |server| + 8 && url[|url| - 8..] == "/message"
    ensures var base := url[..|url| - 8];
      base == server[..|base|] &&
      (forall i :: |base| <= i < |server| ==> server[i] == '/') &&
      (base == [] || base[|base| - 1] != '/')
  {
    var base := TrimTrailingSlashes(server);
    assert (base + "/message")[..|base|] == base;
    base + "/message"
  }

  /** Trailing slashes on the configured server do not change the URL. */
  lemma EndpointUrlIgnoresTrailingSlash(server: string)
    ensures EndpointUrl(server + "/") == EndpointUrl(server)
  {
    TrimTrailingSlashesAbsorbsSlash(server);
  }

  /** The request of `_send_to_gotify`, built from the raw (unstripped)
    * `gotify_server`. `None` when the server key is absent: then
    * `None.rstrip` raises, the exception is caught and nothing is posted. */
  function BuildRequest(c: Config, p: Payload): (r: Option<Request>)
    ensures r.Some? <==> c.gotifyServer.Some?
    ensures r.Some? ==> r.value.token == c.gotifyToken
    ensures r.Some? ==> r.value.url == EndpointUrl(c.gotifyServer.value) && r.value.body == p
  {
    match c.gotifyServer
    case None => None
    case Some(server) => Some(Request(EndpointUrl(server), c.gotifyToken, p))
  }

  /** Under a valid configuration the request always exists and carries the
    * configured, non-blank token. */
  lemma ValidConfigYieldsRequest(c: Config, p: Payload)
    requires CheckConfig(c)
    ensures BuildRequest(c, p).Some?
    ensures BuildRequest(c, p).value.token == Some(Token(c)) && !IsBlank(Token(c))
  {
  }

  /** One call to `_send_to_gotify`: the request posted, if any, and the
    * boolean it returns. */
  datatype SendOutcome = SendOutcome(posted: Option<Request>, success: bool)

  /** `_send_to_gotify`: at most one POST, no retry; `accepted` is whether
    * Gotify answered 200 without a transport error. */
  function SendToGotify(c: Config, p: Payload, accepted: bool): (o: SendOutcome)
    ensures o.posted == BuildRequest(c, p)
    ensures o.success <==> o.posted.Some? && accepted
  {
    match BuildRequest(c, p)
    case None => SendOutcome(None, false)
    case Some(req) => SendOutcome(Some(req), accepted)
  }
}
