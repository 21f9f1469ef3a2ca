/** The two operations of the client: `GetUser` (a profile) and `GetEmails`
    (the viewer's email addresses). Each selects a URL, performs one `Get`
    and decodes the body. The JSON decoder is a parameter: a function from
    the body to a decoded value, or `None` when the body does not parse. */
module Api {
  import opened Wrappers
  import opened Session
  import opened Routes
  import opened Transport

  datatype GithubUserPlan = GithubUserPlan(
    name: string,
    space: int,
    collaborators: int,
    privateRepos: int)

  /** A user profile; its fields are filled by the decoder. */
  datatype GithubUser = GithubUser(
    login: string,
    id: int,
    avatarUrl: string,
    gravatarId: string,
    url: string,
    name: string,
    company: string,
    blog: string,
    location: string,
    email: string,
    hireable: bool,
    bio: string,
    publicRepos: int,
    publicGists: int,
    followers: int,
    following: int,
    htmlUrl: string,
    createdAt: string,
    kind: string,
    plan: GithubUserPlan)

  /** Go's zero value `GithubUser{}`. */
  const ZeroUser := GithubUser("", 0, "", "", "", "", "", "", "", "", false, "", 0, 0, 0, 0, "", "",
                               "", GithubUserPlan("", 0, 0, 0))

  type GithubUserEmails = seq<string>

  /** How `GetUser` fails: the GET failed, or its body did not decode. */
  datatype UserError = UserGetFailed(cause: FetchError) | UserParseFailed

  /** How `GetEmails` fails: no credentials, the GET failed, or its body did
      not decode. */
  datatype EmailsError = NotAuthenticated | EmailsGetFailed(cause: FetchError) | EmailsParseFailed

  /** Go's `(GithubUser, error)` pair, with the requests the call issued. */
  datatype UserReply = UserReply(user: GithubUser, err: Option<UserError>, requests: seq<Request>)

  /** Go's `(GithubUserEmails, error)` pair, with the requests the call issued. */
  datatype EmailsReply = EmailsReply(emails: GithubUserEmails, err: Option<EmailsError>, requests: seq<Request>)

  /** Fetches the profile `username` names under the self rule of
      `UserPath`, and decodes it. */
  function GetUser(u: AuthenticatedUser, username: string, net: Network,
                   decode: Bytes -> Option<GithubUser>): (r: UserReply)
    // One request at most, to the URL of the self rule.
    ensures r.requests == Get(u, UserPath(u, username), net).requests
    ensures |r.requests| <= 1
    ensures forall q | q in r.requests :: q.url == UserPath(u, username)
    // A failed GET is reported as such, with its cause.
    ensures Get(u, UserPath(u, username), net).err != None ==>
              r.err == Some(UserGetFailed(Get(u, UserPath(u, username), net).err.value))
    // A parse error only ever follows a successful GET whose body the
    // decoder rejects.
    ensures r.err == Some(UserParseFailed) <==>
              Get(u, UserPath(u, username), net).err == None &&
              decode(Get(u, UserPath(u, username), net).body) == None
    // Success exactly when the GET succeeds and the decoder accepts its
    // body, and then the profile is what the decoder made of the body.
    ensures r.err == None <==>
              Get(u, UserPath(u, username), net).err == None &&
              decode(Get(u, UserPath(u, username), net).body).Some?
    ensures r.err == None ==> Some(r.user) == decode(Get(u, UserPath(u, username), net).body)
    // On any failure the profile is the zero value.
    ensures r.err != None ==> r.user == ZeroUser
  {
    var path := UserPath(u, username);
    var fetched := Get(u, path, net);
    if fetched.err != None then
      UserReply(ZeroUser, Some(UserGetFailed(fetched.err.value)), fetched.requests)
    else
      match decode(fetched.body)
      case None => UserReply(ZeroUser, Some(UserParseFailed), fetched.requests)
      case Some(user) => UserReply(user, None, fetched.requests)
  }

  /** Fetches the viewer's email addresses; only for a fully credentialed
      session. */
  function GetEmails(u: AuthenticatedUser, net: Network,
                     decode: Bytes -> Option<GithubUserEmails>): (r: EmailsReply)
    // Without both credentials: refused before any request, with the empty list.
    ensures !u.HasCredentials() ==> r == EmailsReply([], Some(NotAuthenticated), [])
    // Otherwise one request at most, to the email resource, with credentials.
    ensures u.HasCredentials() ==>
              r.requests == (if net.canBuild(EmailsUrl) then [RequestFor(u, EmailsUrl)] else [])
    // A failed GET is reported as such, with its cause.
    ensures u.HasCredentials() && Get(u, EmailsUrl, net).err != None ==>
              r.err == Some(EmailsGetFailed(Get(u, EmailsUrl, net).err.value))
    // A parse error only ever follows a successful GET whose body the
    // decoder rejects.
    ensures r.err == Some(EmailsParseFailed) <==>
              u.HasCredentials() && Get(u, EmailsUrl, net).err == None &&
              decode(Get(u, EmailsUrl, net).body) == None
    // Success exactly for a credentialed session whose GET succeeds and
    // whose body the decoder accepts, and then the list is what the decoder
    // made of the body.
    ensures r.err == None <==>
              u.HasCredentials() && Get(u, EmailsUrl, net).err == None &&
              decode(Get(u, EmailsUrl, net).body).Some?
    ensures r.err == None ==> Some(r.emails) == decode(Get(u, EmailsUrl, net).body)
    // On any failure the list is empty.
    ensures r.err != None ==> r.emails == []
  {
    if u.username == "" || u.password == "" then
      EmailsReply([], Some(NotAuthenticated), [])
    else
      var fetched := Get(u, EmailsUrl, net);
      if fetched.err != None then
        EmailsReply([], Some(EmailsGetFailed(fetched.err.value)), fetched.requests)
      else
        match decode(fetched.body)
        case None => EmailsReply([], Some(EmailsParseFailed), fetched.requests)
        case Some(emails) => EmailsReply(emails, None, fetched.requests)
  }

  /** A non-200 status surfaces as a GET failure carrying the status, never
      as a parse failure, and the decoder is not consulted: any two decoders
      give the same reply. */
  lemma NonOkUserIsGetError(u: AuthenticatedUser, username: string, net: Network,
                            decode1: Bytes -> Option<GithubUser>, decode2: Bytes -> Option<GithubUser>,
                            status: int)
    requires ReplyTo(u, UserPath(u, username), net).Some?
    requires ReplyTo(u, UserPath(u, username), net).value.Response?
    requires ReplyTo(u, UserPath(u, username), net).value.statusCode == status != StatusOK
    ensures GetUser(u, username, net, decode1).err == Some(UserGetFailed(NonOkStatus(status)))
    ensures GetUser(u, username, net, decode1) == GetUser(u, username, net, decode2)
  {
  }

  /** The same for the email list. */
  lemma NonOkEmailsIsGetError(u: AuthenticatedUser, net: Network,
                              decode1: Bytes -> Option<GithubUserEmails>,
                              decode2: Bytes -> Option<GithubUserEmails>, status: int)
    requires u.HasCredentials()
    requires ReplyTo(u, EmailsUrl, net).Some?
    requires ReplyTo(u, EmailsUrl, net).value.Response?
    requires ReplyTo(u, EmailsUrl, net).value.statusCode == status != StatusOK
    ensures GetEmails(u, net, decode1).err == Some(EmailsGetFailed(NonOkStatus(status)))
    ensures GetEmails(u, net, decode1) == GetEmails(u, net, decode2)
  {
  }

  /** A 200 whose body the decoder rejects surfaces as a parse failure,
      never as a GET failure. */
  lemma UndecodableUserIsParseError(u: AuthenticatedUser, username: string, net: Network,
                                    decode: Bytes -> Option<GithubUser>, body: Bytes)
    requires ReplyTo(u, UserPath(u, username), net) == Some(Response(StatusOK, Some(body)))
    requires decode(body) == None
    ensures GetUser(u, username, net, decode) ==
              UserReply(ZeroUser, Some(UserParseFailed), [RequestFor(u, UserPath(u, username))])
  {
  }

  /** The same for the email list. */
  lemma UndecodableEmailsIsParseError(u: AuthenticatedUser, net: Network,
                                      decode: Bytes -> Option<GithubUserEmails>, body: Bytes)
    requires u.HasCredentials()
    requires ReplyTo(u, EmailsUrl, net) == Some(Response(StatusOK, Some(body)))
    requires decode(body) == None
    ensures GetEmails(u, net, decode) ==
              EmailsReply([], Some(EmailsParseFailed), [RequestFor(u, EmailsUrl)])
  {
  }

  /** An anonymous session is refused the email list without any request,
      whatever the network would have answered. */
  lemma AnonymousEmailsRefused(net: Network, decode: Bytes -> Option<GithubUserEmails>)
    ensures GetEmails(Anonymous, net, decode) == EmailsReply([], Some(NotAuthenticated), [])
  {
  }

  /** End to end: a session made by `Client` from a non-empty map passes
      the precondition of `GetEmails` and sends its credentials, while the
      session made from no credentials is refused. */
  lemma ClientSessionAndEmails(credentials: map<string, string>, net: Network,
                               decode: Bytes -> Option<GithubUserEmails>)
    requires Client(credentials).err == None
    ensures |credentials| > 0 ==> GetEmails(Client(credentials).user, net, decode).err != Some(NotAuthenticated)
    ensures |credentials| > 0 && net.canBuild(EmailsUrl) ==>
              GetEmails(Client(credentials).user, net, decode).requests ==
                [Request("GET", EmailsUrl,
                         Some(BasicAuth(credentials[UsernameKey], credentials[PasswordKey])))]
    ensures |credentials| == 0 ==>
              GetEmails(Client(credentials).user, net, decode) == EmailsReply([], Some(NotAuthenticated), [])
  {
  }
}
