/** The authenticated GET of the client (`get`). The HTTP machinery is an
    abstract `Network`: whether a request can be built for a URL, and the
    reply the transport gives to a request. */
module Transport {
  import opened Wrappers
  import opened Session

  newtype byte = x: int | 0 <= x < 256

  type Bytes = seq<byte>

  const StatusOK: int := 200

  datatype BasicAuth = BasicAuth(username: string, password: string)

  /** An outgoing request: its verb, its URL and its Basic Auth header. */
  datatype Request = Request(verb: string, url: string, auth: Option<BasicAuth>)

  /** What the transport answers. `Response` carries the status code and the
      body, `None` when reading the body fails. */
  datatype Reply =
    | ConnectionFailed
    | Response(statusCode: int, body: Option<Bytes>)

  /** The environment of a call: `canBuild` says whether a request can be
      constructed for a URL, `roundTrip` is the reply to a request. */
  datatype Network = Network(canBuild: string -> bool, roundTrip: Request -> Reply)

  /** The four ways `get` fails. */
  datatype FetchError =
    | CouldNotCreateRequest
    | CouldNotProcessRequest
    | NonOkStatus(statusCode: int)
    | CouldNotReadBody

  /** Go's `([]byte, error)` pair, with what the call did: the requests it
      handed to the transport and whether it read the response body. */
  datatype Fetched = Fetched(body: Bytes, err: Option<FetchError>, requests: seq<Request>, bodyRead: bool)

  /** The Basic Auth credentials a session's requests carry. */
  function AuthFor(u: AuthenticatedUser): (a: Option<BasicAuth>)
    // Attached exactly when both username and password are non-empty ...
    ensures a.Some? <==> u.HasCredentials()
    // ... and then they are the session's own.
    ensures a.Some? ==> a.value.username == u.username && a.value.password == u.password
  {
    if u.username != "" && u.password != "" then Some(BasicAuth(u.username, u.password)) else None
  }

  /** The request `get` builds for a URL. */
  function RequestFor(u: AuthenticatedUser, url: string): Request
  {
    Request("GET", url, AuthFor(u))
  }

  /** The reply the transport gives to the request for `url`, or `None`
      when no request can be built. */
  function ReplyTo(u: AuthenticatedUser, url: string, net: Network): Option<Reply>
  {
    if net.canBuild(url) then Some(net.roundTrip(RequestFor(u, url))) else None
  }

  /** Hands one GET of `url` under session `u` to the HTTP client. */
  function Get(u: AuthenticatedUser, url: string, net: Network): (f: Fetched)
    // At most one request is handed to the HTTP client, for `url`, with
    // credentials only for a fully credentialed session.
    ensures f.requests == if net.canBuild(url) then [RequestFor(u, url)] else []
    // Success exactly on a 200 whose body could be read, and then the body
    // is returned as read.
    ensures f.err == None <==>
              ReplyTo(u, url, net).Some? && ReplyTo(u, url, net).value.Response? &&
              ReplyTo(u, url, net).value.statusCode == StatusOK &&
              ReplyTo(u, url, net).value.body.Some?
    ensures f.err == None ==> f.body == ReplyTo(u, url, net).value.body.value
    // Any failure returns the empty body.
    ensures f.err != None ==> f.body == []
    // The body is read only after a 200.
    ensures f.bodyRead <==>
              ReplyTo(u, url, net).Some? && ReplyTo(u, url, net).value.Response? &&
              ReplyTo(u, url, net).value.statusCode == StatusOK
    // Each failure is reported with its own cause: a request that cannot
    // be built, a transport failure, a body that cannot be read ...
    ensures !net.canBuild(url) ==> f.err == Some(CouldNotCreateRequest)
    ensures ReplyTo(u, url, net) == Some(ConnectionFailed) ==> f.err == Some(CouldNotProcessRequest)
    ensures ReplyTo(u, url, net) == Some(Response(StatusOK, None)) ==> f.err == Some(CouldNotReadBody)
    // ... and any other status, reported with that status.
    ensures ReplyTo(u, url, net).Some? && ReplyTo(u, url, net).value.Response? &&
            ReplyTo(u, url, net).value.statusCode != StatusOK ==>
              f.err == Some(NonOkStatus(ReplyTo(u, url, net).value.statusCode))
  {
    if !net.canBuild(url) then
      Fetched([], Some(CouldNotCreateRequest), [], false)
    else
      var req := RequestFor(u, url);
      match net.roundTrip(req)
      case ConnectionFailed =>
        Fetched([], Some(CouldNotProcessRequest), [req], false)
      case Response(status, body) =>
        if status != StatusOK then
          Fetched([], Some(NonOkStatus(status)), [req], false)
        else
          match body
          case None => Fetched([], Some(CouldNotReadBody), [req], true)
          case Some(bytes) => Fetched(bytes, None, [req], true)
  }

  /** An anonymous session never sends credentials. */
  lemma AnonymousSendsNoAuth(url: string, net: Network)
    ensures forall r | r in Get(Anonymous, url, net).requests :: r.auth == None
  {
  }

  /** Two sessions that differ only in the half credential they carry send
      the same requests: a username without a password (or the reverse) is
      treated as no credentials at all. */
  lemma HalfCredentialsSendNoAuth(u: AuthenticatedUser, url: string)
    requires !u.HasCredentials()
    ensures RequestFor(u, url) == RequestFor(Anonymous, url)
  {
  }
}
