/** The credential holder of the client (`AuthenticatedUser`) and its
    validating constructor `Client`, which turns a credentials map into a
    session or an error. */
module Session {
  import opened Wrappers

  /** A session. Only HTTP Basic Authentication is supported, so a session
      holds a username and a password; both are empty for an anonymous one. */
  datatype AuthenticatedUser = AuthenticatedUser(username: string, password: string)
  {
    predicate IsAnonymous() { username == "" && password == "" }

    /** Both credentials present: requests carry Basic Auth and the email
        list may be fetched. */
    predicate HasCredentials() { username != "" && password != "" }

    /** The invariant of every session `Client` hands out: never exactly one
        of the two fields populated. */
    predicate WellFormed() { IsAnonymous() || HasCredentials() }
  }

  /** Go's zero value `AuthenticatedUser{}`. */
  const Anonymous := AuthenticatedUser("", "")

  /** The only way `Client` can fail: an unsupported authentication type. */
  datatype ClientError = UnsupportedAuthentication

  /** Go's `(AuthenticatedUser, error)` pair; `err == None` stands for nil. */
  datatype ClientReply = ClientReply(user: AuthenticatedUser, err: Option<ClientError>)

  const UsernameKey := "username"
  const PasswordKey := "password"

  /** Indexing a Go map: a missing key reads as the zero value "". */
  function Lookup(m: map<string, string>, key: string): string
  {
    if key in m then m[key] else ""
  }

  /** Validates a credentials map. A nil map and an empty map are the same
      here (both have length zero in Go). */
  function Client(credentials: map<string, string>): (r: ClientReply)
    // Success exactly for "no credentials" or "both credentials non-empty";
    // a non-empty map with only unrelated keys is therefore rejected.
    ensures r.err == None <==>
              (|credentials| == 0 ||
               (Lookup(credentials, UsernameKey) != "" && Lookup(credentials, PasswordKey) != ""))
    // On error the session is the zero value.
    ensures r.err != None ==> r.user == Anonymous
    // No credentials give the anonymous session.
    ensures |credentials| == 0 ==> r.user == Anonymous
    // Accepted credentials are stored exactly as given.
    ensures |credentials| > 0 && r.err == None ==>
              UsernameKey in credentials && PasswordKey in credentials &&
              r.user == AuthenticatedUser(credentials[UsernameKey], credentials[PasswordKey])
    // Every session handed out without error satisfies the session invariant.
    ensures r.err == None ==> r.user.WellFormed()
  {
    var user := Anonymous;
    if |credentials| == 0 then
      ClientReply(user, None)
    else
      var username := Lookup(credentials, UsernameKey);
      var password := Lookup(credentials, PasswordKey);
      if username != "" && password != "" then
        ClientReply(AuthenticatedUser(username, password), None)
      else
        ClientReply(Anonymous, Some(UnsupportedAuthentication))
  }

  /** How the command-line example builds the credentials map from its two
      flags: no map at all unless one of them is set. */
  function CredentialMap(username: string, password: string): (m: map<string, string>)
    ensures |m| == 0 <==> username == "" && password == ""
    ensures |m| > 0 ==> m == map[UsernameKey := username, PasswordKey := password]
  {
    if username != "" || password != "" then
      map[UsernameKey := username, PasswordKey := password]
    else
      map[]
  }

  /** A map with entries but without both credential keys (for example
      `{"token": "x"}`) is refused, with the zero session. */
  lemma UnrelatedKeysRejected(credentials: map<string, string>)
    requires |credentials| > 0
    requires UsernameKey !in credentials || PasswordKey !in credentials
    ensures Client(credentials) == ClientReply(Anonymous, Some(UnsupportedAuthentication))
  {
  }

  /** Any map carrying exactly one usable credential is refused, with the
      zero session, whatever else it holds. */
  lemma HalfCredentialsRejected(credentials: map<string, string>)
    requires (Lookup(credentials, UsernameKey) == "") != (Lookup(credentials, PasswordKey) == "")
    ensures Client(credentials) == ClientReply(Anonymous, Some(UnsupportedAuthentication))
  {
  }

  /** Round trip: every well-formed session is reproduced by `Client` from
      the map the command-line example would build for its fields, so
      `Client` reaches every well-formed session and no other. */
  lemma SessionRoundTrip(s: AuthenticatedUser)
    requires s.WellFormed()
    ensures Client(CredentialMap(s.username, s.password)) == ClientReply(s, None)
  {
  }
}
